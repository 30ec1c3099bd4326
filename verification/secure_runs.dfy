/** Whole runs of the two endpoints of a secure channel over a relay that
    loses, duplicates and reorders their frames and whose links fail at will. */
module SecureRuns {
  import opened Bytes
  import opened Secure

  /** An endpoint with its histories: the plaintexts it sealed and dispatched,
      the frames it buffered, those its handshake read, those its transport
      loop tried to open, and whether a sealed frame was ever given up. */
  datatype Endpoint = Endpoint(
    s: Session, net: Wire, sealed: seq<Plain>, dispatched: seq<Plain>,
    arrived: seq<Frame>, handshake: seq<Frame>, tried: seq<Frame>, abandoned: bool)

  datatype Event =
    | StartHandshake(script: seq<Attempt>)
    | HandshakeTurn(script: seq<Attempt>)
    | HandshakeTimeout
    | Arrive(frame: nat)
    | TransportTurn(parses: bool)
    | Send(plain: Plain, script: seq<Attempt>)
    | CloseSession

  function Act(me: Endpoint, peer: Endpoint, ev: Event): Endpoint {
    match ev
    case StartHandshake(script) =>
      if me.s.phase != Start then me
      else
        var (s, net) := Begin(me.s, Wire(me.net.frames, script));
        me.(s := s, net := net)
    case HandshakeTurn(script) =>
      if !Awaiting(me.s) || me.s.inbound == [] then me
      else
        var (s, net) := Handshake(me.s, Wire(me.net.frames, script));
        me.(s := s, net := net, handshake := me.handshake + [me.s.inbound[0]])
    case HandshakeTimeout => if Awaiting(me.s) then me.(s := End(me.s, TimedOut)) else me
    case Arrive(i) =>
      if i < |peer.net.frames| && me.s.phase != Ended && HasRoom(me.s) then
        me.(s := Deliver(me.s, peer.net.frames[i]), arrived := me.arrived + [peer.net.frames[i]])
      else me
    case TransportTurn(parses) =>
      var (s, plain) := Receive(me.s, parses);
      me.(s := s,
          tried := if me.s.phase == Transport && me.s.inbound != [] then me.tried + [me.s.inbound[0]] else me.tried,
          dispatched := if plain.Some? then me.dispatched + [plain.value] else me.dispatched)
    case Send(plain, script) =>
      var r := Write(me.s, Wire(me.net.frames, script), plain);
      me.(s := r.session, net := r.net,
          sealed := if r.status == Ok || r.status == WriteFailed then me.sealed + [plain] else me.sealed,
          abandoned := me.abandoned || r.status == WriteFailed)
    case CloseSession => me.(s := Finish(me.s, SessionClosed))
  }

  datatype System = System(i: Endpoint, r: Endpoint)
  datatype Step = Step(atInitiator: bool, event: Event)

  function Next(t: System, step: Step): System {
    if step.atInitiator then System(Act(t.i, t.r, step.event), t.r) else System(t.i, Act(t.r, t.i, step.event))
  }

  function Run(t: System, steps: seq<Step>): System
    decreases |steps|
  {
    if steps == [] then t else Next(Run(t, steps[..|steps| - 1]), steps[|steps| - 1])
  }

  function Fresh(initiator: bool, ephemeral: nat, identity: nat): Endpoint {
    Endpoint(NewSession(initiator, ephemeral, identity), Wire([], []), [], [], [], [], [], false)
  }

  function Initial(ei: nat, si: nat, er: nat, sr: nat): System { System(Fresh(true, ei, si), Fresh(false, er, sr)) }

  // ----------------------------------------------------------- the invariant

  /** Keys appear only with a complete transcript, and point the right way. */
  ghost predicate KeysOk(s: Session) {
    && (s.phase.Start? || s.phase.AwaitHello? ==> s.transcript == [])
    && (s.phase.AwaitReply? ==> s.role.initiator && |s.transcript| == 1)
    && (s.phase.AwaitConfirm? ==> !s.role.initiator && |s.transcript| == 2)
    && (s.phase.Start? ==> s.role.initiator) && (s.phase.AwaitHello? ==> !s.role.initiator)
    && (s.phase.Start? || Awaiting(s) ==> !s.keys.established)
    && (s.phase.Transport? ==> s.keys.established)
    && (!s.keys.established ==> s.keys.send.None? && s.keys.recv.None?)
    && (s.keys.established ==>
          && |s.transcript| == 3
          && s.keys.send.Some? && s.keys.send.value.key == Key(s.transcript, s.role.initiator)
          && s.keys.recv.Some? && s.keys.recv.value.key == Key(s.transcript, !s.role.initiator))
  }

  /** Which handshake frame stands at each place of a transcript. */
  ghost predicate TranscriptOk(s: Session) {
    && |s.transcript| <= 3
    && (s.role.initiator && |s.transcript| >= 1 ==> s.transcript[0].Hello?)
    && (|s.transcript| >= 2 ==> s.transcript[1].Reply? && s.transcript[1].heard == s.transcript[..1])
    && (|s.transcript| == 3 ==> s.transcript[2].Confirm? && s.transcript[2].heard == s.transcript[..2])
  }

  /** The frames an endpoint may have put on the relay. */
  ghost predicate FrameOk(f: Frame, e: Endpoint)
    requires KeysOk(e.s)
  {
    match f
    case Hello(_) => e.s.role.initiator && |e.s.transcript| >= 1 && f == e.s.transcript[0]
    case Reply(_, _, _) => !e.s.role.initiator && |e.s.transcript| >= 2 && f == e.s.transcript[1]
    case Confirm(_, _) => e.s.role.initiator && |e.s.transcript| == 3 && f == e.s.transcript[2]
    case Sealed(k, c, p) => e.s.keys.established && k == e.s.keys.send.value.key && c < |e.sealed| && p == e.sealed[c]
  }

  ghost predicate FramesOk(e: Endpoint)
    requires KeysOk(e.s)
  {
    forall i | 0 <= i < |e.net.frames| :: FrameOk(e.net.frames[i], e)
  }

  ghost predicate CountersOk(e: Endpoint)
    requires KeysOk(e.s)
  {
    && (!e.s.keys.established ==> e.sealed == [] && e.dispatched == [] && e.tried == [])
    && (e.s.keys.established ==> e.s.keys.send.value.n == |e.sealed| && |e.dispatched| <= e.s.keys.recv.value.n)
    && (e.s.phase.Transport? ==> e.s.keys.recv.value.n == |e.dispatched|)
    && (e.abandoned ==> e.s.ending.closed)
  }

  /** Every buffered frame is read by the handshake, by the transport loop, or
      still waits, in that order; so no frame is read by both. */
  ghost predicate BufferOk(e: Endpoint)
    requires KeysOk(e.s)
  {
    && e.arrived == e.handshake + e.tried + e.s.inbound
    && (e.s.phase.Start? || e.s.phase.AwaitHello? || e.s.phase.AwaitReply? ==> e.handshake == [])
    && (e.s.phase.AwaitConfirm? ==> e.handshake == e.s.transcript[..1])
    && (e.s.keys.established ==>
          e.handshake == if e.s.role.initiator then [e.s.transcript[1]] else [e.s.transcript[0], e.s.transcript[2]])
  }

  ghost predicate EndpointOk(e: Endpoint) {
    KeysOk(e.s) && TranscriptOk(e.s) && FramesOk(e) && CountersOk(e) && BufferOk(e)
  }

  /** What `me` has heard, it heard from `peer`. */
  ghost predicate HeardFrom(me: Endpoint, peer: Endpoint)
    requires KeysOk(peer.s)
  {
    && (forall f | f in me.arrived :: FrameOk(f, peer))
    && |me.dispatched| <= |peer.sealed| && me.dispatched == peer.sealed[..|me.dispatched|]
    && (me.s.role.initiator && |me.s.transcript| >= 2 ==> FrameOk(me.s.transcript[1], peer))
    && (!me.s.role.initiator && |me.s.transcript| == 3 ==> FrameOk(me.s.transcript[2], peer))
  }

  ghost predicate Inv(t: System) {
    && t.i.s.role.initiator && !t.r.s.role.initiator
    && EndpointOk(t.i) && EndpointOk(t.r) && HeardFrom(t.i, t.r) && HeardFrom(t.r, t.i)
  }

  // --------------------------------------------------- each event keeps it

  /** Later states of an endpoint still own its earlier frames. */
  ghost predicate Extends(e: Endpoint, e': Endpoint)
    requires KeysOk(e.s) && KeysOk(e'.s)
  {
    && e'.s.role.initiator == e.s.role.initiator
    && e.s.transcript <= e'.s.transcript
    && e.sealed <= e'.sealed
    && (e.s.keys.established ==> e'.s.keys.established && e'.s.keys.send.value.key == e.s.keys.send.value.key)
  }

  lemma ExtendsOwns(e: Endpoint, e': Endpoint, f: Frame)
    requires KeysOk(e.s) && KeysOk(e'.s) && TranscriptOk(e'.s) && Extends(e, e') && FrameOk(f, e)
    ensures FrameOk(f, e')
  {
  }

  lemma ExtendsHeard(me: Endpoint, e: Endpoint, e': Endpoint)
    requires KeysOk(e.s) && KeysOk(e'.s) && TranscriptOk(e'.s) && Extends(e, e') && HeardFrom(me, e)
    ensures HeardFrom(me, e')
  {
    forall f | FrameOk(f, e) ensures FrameOk(f, e') { ExtendsOwns(e, e', f); }
    assert e'.sealed[..|me.dispatched|] == e.sealed[..|me.dispatched|];
  }

  /** Shipping a frame the endpoint owns keeps all its frames its own. */
  lemma ShipOwned(e: Endpoint, e': Endpoint, script: seq<Attempt>, f: Frame)
    requires KeysOk(e.s) && KeysOk(e'.s) && TranscriptOk(e'.s) && Extends(e, e') && FramesOk(e) && FrameOk(f, e')
    requires e'.net == Ship(Wire(e.net.frames, script), f).0
    ensures FramesOk(e')
  {
    forall i | 0 <= i < |e'.net.frames| ensures FrameOk(e'.net.frames[i], e') {
      if i < |e.net.frames| {
        ExtendsOwns(e, e', e.net.frames[i]);
      }
    }
  }

  lemma QuietKeepsFrames(e: Endpoint, e': Endpoint)
    requires KeysOk(e.s) && KeysOk(e'.s) && TranscriptOk(e'.s) && Extends(e, e') && FramesOk(e)
    requires e'.net.frames == e.net.frames
    ensures FramesOk(e')
  {
    forall i | 0 <= i < |e'.net.frames| ensures FrameOk(e'.net.frames[i], e') { ExtendsOwns(e, e', e.net.frames[i]); }
  }

  /** The next buffered frame came from the peer; reading it moves the border
      between what was read and what waits. */
  lemma HeadRead(e: Endpoint)
    requires KeysOk(e.s) && BufferOk(e) && e.s.inbound != []
    ensures e.s.inbound[0] in e.arrived
    ensures e.tried == [] ==> e.arrived == (e.handshake + [e.s.inbound[0]]) + e.tried + e.s.inbound[1..]
    ensures e.arrived == e.handshake + (e.tried + [e.s.inbound[0]]) + e.s.inbound[1..]
  {
    assert e.arrived[|e.handshake + e.tried|] == e.s.inbound[0];
  }

  /** An event at `me` turned it into `e`. */
  ghost predicate Kept(me: Endpoint, e: Endpoint, peer: Endpoint)
    requires KeysOk(me.s) && KeysOk(peer.s)
  {
    EndpointOk(e) && HeardFrom(e, peer) && Extends(me, e)
  }

  /** The responder read a first frame f and answered it with m2. */
  ghost predicate Answering(me: Endpoint, e: Endpoint, f: Frame, m2: Frame) {
    && me.s.inbound != [] && e == me.(s := e.s, net := e.net, handshake := me.handshake + [f])
    && e.s == me.s.(inbound := me.s.inbound[1..], transcript := [f, m2], phase := e.s.phase, ending := e.s.ending)
    && (e.s.phase.AwaitConfirm? || e.s.phase.Ended?) && (me.s.ending.closed ==> e.s.ending.closed)
  }

  lemma HelloActs(me: Endpoint, peer: Endpoint, script: seq<Attempt>)
    requires me.s.phase.AwaitHello? && me.s.inbound != []
    ensures var e, f := Act(me, peer, HandshakeTurn(script)), me.s.inbound[0];
            var m2 := Reply([f], me.s.role.ephemeral, me.s.role.identity);
            Answering(me, e, f, m2) && e.net == Ship(Wire(me.net.frames, script), m2).0
  {
  }

  lemma AnsweringKeeps(me: Endpoint, e: Endpoint, peer: Endpoint, f: Frame, m2: Frame)
    requires me.s.phase.AwaitHello? && me.s.inbound != [] && f == me.s.inbound[0]
    requires EndpointOk(me) && EndpointOk(peer) && HeardFrom(me, peer)
    requires Answering(me, e, f, m2) && m2 == Reply([f], me.s.role.ephemeral, me.s.role.identity)
    ensures KeysOk(e.s) && TranscriptOk(e.s) && CountersOk(e) && BufferOk(e) && HeardFrom(e, peer) && Extends(me, e)
    ensures FrameOk(m2, e)
  {
    HeadRead(me);
  }

  lemma HelloKeeps(me: Endpoint, peer: Endpoint, script: seq<Attempt>)
    requires me.s.phase.AwaitHello? && me.s.inbound != []
    requires EndpointOk(me) && EndpointOk(peer) && HeardFrom(me, peer)
    ensures Kept(me, Act(me, peer, HandshakeTurn(script)), peer)
  {
    var e, f := Act(me, peer, HandshakeTurn(script)), me.s.inbound[0];
    var m2 := Reply([f], me.s.role.ephemeral, me.s.role.identity);
    HelloActs(me, peer, script);
    AnsweringKeeps(me, e, peer, f, m2);
    ShipOwned(me, e, script, m2);
  }

  /** The initiator read the reply f and answered it with m3; it is established
      if that landed. */
  ghost predicate Confirming(me: Endpoint, e: Endpoint, f: Frame, m3: Frame) {
    && me.s.inbound != [] && e == me.(s := e.s, net := e.net, handshake := me.handshake + [f])
    && var s1 := me.s.(inbound := me.s.inbound[1..], transcript := me.s.transcript + [f, m3]);
       e.s == Install(s1) || e.s == s1.(phase := Ended, ending := e.s.ending)
  }

  lemma ReplyActs(me: Endpoint, peer: Endpoint, script: seq<Attempt>)
    requires me.s.phase.AwaitReply? && me.s.inbound != []
    requires me.s.inbound[0].Reply? && me.s.inbound[0].heard == me.s.transcript
    ensures var e, f := Act(me, peer, HandshakeTurn(script)), me.s.inbound[0];
            var m3 := Confirm(me.s.transcript + [f], me.s.role.identity);
            && Confirming(me, e, f, m3) && e.net == Ship(Wire(me.net.frames, script), m3).0
            && (me.s.ending.closed ==> e.s.ending.closed)
  {
  }

  lemma ConfirmingKeeps(me: Endpoint, e: Endpoint, peer: Endpoint, f: Frame, m3: Frame)
    requires me.s.phase.AwaitReply? && me.s.inbound != [] && f == me.s.inbound[0] && f.Reply? && f.heard == me.s.transcript
    requires EndpointOk(me) && EndpointOk(peer) && HeardFrom(me, peer) && (me.s.ending.closed ==> e.s.ending.closed)
    requires Confirming(me, e, f, m3) && m3 == Confirm(me.s.transcript + [f], me.s.role.identity)
    ensures KeysOk(e.s) && TranscriptOk(e.s) && CountersOk(e) && BufferOk(e) && HeardFrom(e, peer) && Extends(me, e)
    ensures FrameOk(m3, e)
  {
    HeadRead(me);
    assert e.s.transcript[..1] == me.s.transcript && e.s.transcript[..2] == me.s.transcript + [f];
  }

  /** A frame that does not continue the handshake ends the session. */
  lemma MisreadKeeps(me: Endpoint, e: Endpoint, peer: Endpoint)
    requires Awaiting(me.s) && me.s.inbound != [] && EndpointOk(me) && EndpointOk(peer) && HeardFrom(me, peer)
    requires e == me.(s := e.s, handshake := me.handshake + [me.s.inbound[0]], net := e.net) && e.net.frames == me.net.frames
    requires e.s == me.s.(inbound := me.s.inbound[1..], phase := Ended, ending := e.s.ending) && e.s.ending.closed
    ensures Kept(me, e, peer)
  {
    HeadRead(me);
    QuietKeepsFrames(me, e);
  }

  lemma ReplyKeeps(me: Endpoint, peer: Endpoint, script: seq<Attempt>)
    requires me.s.phase.AwaitReply? && me.s.inbound != []
    requires EndpointOk(me) && EndpointOk(peer) && HeardFrom(me, peer)
    ensures Kept(me, Act(me, peer, HandshakeTurn(script)), peer)
  {
    var e, f := Act(me, peer, HandshakeTurn(script)), me.s.inbound[0];
    if f.Reply? && f.heard == me.s.transcript {
      var m3 := Confirm(me.s.transcript + [f], me.s.role.identity);
      ReplyActs(me, peer, script);
      ConfirmingKeeps(me, e, peer, f, m3);
      ShipOwned(me, e, script, m3);
    } else {
      MisreadKeeps(me, e, peer);
    }
  }

  lemma ConfirmKeeps(me: Endpoint, peer: Endpoint, script: seq<Attempt>)
    requires me.s.phase.AwaitConfirm? && me.s.inbound != []
    requires EndpointOk(me) && EndpointOk(peer) && HeardFrom(me, peer)
    ensures Kept(me, Act(me, peer, HandshakeTurn(script)), peer)
  {
    var e := Act(me, peer, HandshakeTurn(script));
    var f := me.s.inbound[0];
    HeadRead(me);
    if f.Confirm? && f.heard == me.s.transcript {
      assert e.s.transcript == me.s.transcript + [f];
      assert e.s.transcript[..1] == me.s.transcript[..1] && e.s.transcript[..2] == me.s.transcript;
    }
    QuietKeepsFrames(me, e);
  }

  /** The frame the transport loop expects: the peer's next sealed plaintext. */
  lemma NextSealed(me: Endpoint, peer: Endpoint, f: Frame)
    requires EndpointOk(me) && EndpointOk(peer) && HeardFrom(me, peer) && FrameOk(f, peer)
    requires me.s.phase.Transport? && f.Sealed? && f.counter == me.s.keys.recv.value.n
    ensures |me.dispatched| < |peer.sealed|
    ensures me.dispatched + [f.plain] == peer.sealed[..|me.dispatched| + 1]
  {
    assert peer.sealed[..f.counter + 1] == peer.sealed[..f.counter] + [f.plain];
  }

  /** The transport loop read one frame it could not hand on and ended. */
  ghost predicate Gave(me: Endpoint, e: Endpoint) {
    && me.s.phase.Transport? && me.s.inbound != [] && e.s.phase.Ended? && e.s.ending.closed
    && e == me.(s := e.s, tried := me.tried + [me.s.inbound[0]])
    && e.s == me.s.(inbound := me.s.inbound[1..], phase := e.s.phase, ending := e.s.ending, keys := me.s.keys.(recv := e.s.keys.recv))
    && e.s.keys.recv.Some? && me.s.keys.recv.Some? && e.s.keys.recv.value.key == me.s.keys.recv.value.key && me.s.keys.recv.value.n <= e.s.keys.recv.value.n
  }

  lemma GaveKeeps(me: Endpoint, e: Endpoint, peer: Endpoint)
    requires EndpointOk(me) && EndpointOk(peer) && HeardFrom(me, peer) && Gave(me, e)
    ensures Kept(me, e, peer)
  {
    HeadRead(me);
    QuietKeepsFrames(me, e);
  }

  lemma IdleKeeps(me: Endpoint, e: Endpoint, peer: Endpoint)
    requires EndpointOk(me) && EndpointOk(peer) && HeardFrom(me, peer)
    requires e == me || (me.s.phase.Transport? && me.s.ending.closed && e == me.(s := me.s.(phase := Ended)))
    ensures Kept(me, e, peer)
  {
    QuietKeepsFrames(me, e);
  }

  lemma NoDispatchKeeps(me: Endpoint, peer: Endpoint, parses: bool)
    requires EndpointOk(me) && EndpointOk(peer) && HeardFrom(me, peer)
    requires Act(me, peer, TransportTurn(parses)).dispatched == me.dispatched
    ensures Kept(me, Act(me, peer, TransportTurn(parses)), peer)
  {
    var e := Act(me, peer, TransportTurn(parses));
    if me.s.phase.Transport? && me.s.inbound != [] {
      assert Gave(me, e);
      GaveKeeps(me, e, peer);
    } else {
      IdleKeeps(me, e, peer);
    }
  }

  lemma DispatchKeeps(me: Endpoint, peer: Endpoint, f: Frame)
    requires EndpointOk(me) && EndpointOk(peer) && HeardFrom(me, peer)
    requires me.s.phase.Transport? && me.s.inbound != [] && f == me.s.inbound[0]
    requires f.Sealed? && f.key == me.s.keys.recv.value.key && f.counter == me.s.keys.recv.value.n < NONCE_LIMIT
    ensures Kept(me, Act(me, peer, TransportTurn(true)), peer)
  {
    var e := Act(me, peer, TransportTurn(true));
    HeadRead(me);
    NextSealed(me, peer, f);
    assert e.dispatched == me.dispatched + [f.plain];
    QuietKeepsFrames(me, e);
  }

  lemma TransportKeeps(me: Endpoint, peer: Endpoint, parses: bool)
    requires EndpointOk(me) && EndpointOk(peer) && HeardFrom(me, peer)
    ensures Kept(me, Act(me, peer, TransportTurn(parses)), peer)
  {
    if Act(me, peer, TransportTurn(parses)).dispatched == me.dispatched {
      NoDispatchKeeps(me, peer, parses);
    } else {
      DispatchKeeps(me, peer, me.s.inbound[0]);
    }
  }

  lemma SendKeeps(me: Endpoint, peer: Endpoint, plain: Plain, script: seq<Attempt>)
    requires EndpointOk(me) && EndpointOk(peer) && HeardFrom(me, peer)
    ensures Kept(me, Act(me, peer, Send(plain, script)), peer)
  {
    var e := Act(me, peer, Send(plain, script));
    if !me.s.ending.closed && me.s.keys.established && me.s.keys.send.value.n < NONCE_LIMIT {
      ShipOwned(me, e, script, Sealed(me.s.keys.send.value.key, me.s.keys.send.value.n, plain));
    } else {
      QuietKeepsFrames(me, e);
    }
  }

  lemma ArriveKeeps(me: Endpoint, peer: Endpoint, i: nat)
    requires EndpointOk(me) && EndpointOk(peer) && HeardFrom(me, peer)
    ensures Kept(me, Act(me, peer, Arrive(i)), peer)
  {
    var e := Act(me, peer, Arrive(i));
    if e.arrived != me.arrived {
      var f := peer.net.frames[i];
      assert me.handshake + me.tried + (me.s.inbound + [f]) == me.handshake + me.tried + me.s.inbound + [f];
    }
    QuietKeepsFrames(me, e);
  }

  lemma StartKeeps(me: Endpoint, peer: Endpoint, script: seq<Attempt>)
    requires EndpointOk(me) && EndpointOk(peer) && HeardFrom(me, peer)
    ensures Kept(me, Act(me, peer, StartHandshake(script)), peer)
  {
    if me.s.phase.Start? {
      ShipOwned(me, Act(me, peer, StartHandshake(script)), script, Hello(me.s.role.ephemeral));
    }
  }

  lemma HandshakeKeeps(me: Endpoint, peer: Endpoint, script: seq<Attempt>)
    requires EndpointOk(me) && EndpointOk(peer) && HeardFrom(me, peer)
    ensures Kept(me, Act(me, peer, HandshakeTurn(script)), peer)
  {
    if Awaiting(me.s) && me.s.inbound != [] {
      match me.s.phase
      case AwaitHello => HelloKeeps(me, peer, script);
      case AwaitReply => ReplyKeeps(me, peer, script);
      case AwaitConfirm => ConfirmKeeps(me, peer, script);
    } else {
      assert Act(me, peer, HandshakeTurn(script)) == me;
    }
  }

  /** The session counts as closed, and may have ended while it waited. */
  lemma ClosingKeeps(me: Endpoint, e: Endpoint, peer: Endpoint)
    requires EndpointOk(me) && EndpointOk(peer) && HeardFrom(me, peer) && e.s.ending.closed
    requires e == me.(s := me.s.(ending := e.s.ending, phase := e.s.phase))
    requires e.s.phase == me.s.phase || (Awaiting(me.s) && e.s.phase.Ended?)
    ensures Kept(me, e, peer)
  {
    QuietKeepsFrames(me, e);
  }

  lemma ActKeeps(me: Endpoint, peer: Endpoint, ev: Event)
    requires EndpointOk(me) && EndpointOk(peer) && HeardFrom(me, peer)
    ensures Kept(me, Act(me, peer, ev), peer)
  {
    match ev
    case StartHandshake(script) => StartKeeps(me, peer, script);
    case HandshakeTurn(script) => HandshakeKeeps(me, peer, script);
    case Arrive(i) => ArriveKeeps(me, peer, i);
    case TransportTurn(parses) => TransportKeeps(me, peer, parses);
    case Send(plain, script) => SendKeeps(me, peer, plain, script);
    case CloseSession => ClosingKeeps(me, Act(me, peer, ev), peer);
    case HandshakeTimeout =>
      if Awaiting(me.s) {
        ClosingKeeps(me, Act(me, peer, ev), peer);
      } else {
        IdleKeeps(me, me, peer);
      }
  }

  // ------------------------------------------------------------ whole runs

  lemma NextKeeps(t: System, step: Step)
    requires Inv(t)
    ensures Inv(Next(t, step))
  {
    if step.atInitiator {
      ActKeeps(t.i, t.r, step.event);
      ExtendsHeard(t.r, t.i, Act(t.i, t.r, step.event));
    } else {
      ActKeeps(t.r, t.i, step.event);
      ExtendsHeard(t.i, t.r, Act(t.r, t.i, step.event));
    }
  }

  lemma {:induction false} RunInv(t: System, steps: seq<Step>)
    requires Inv(t)
    ensures Inv(Run(t, steps))
    decreases |steps|
  {
    if steps != [] {
      RunInv(t, steps[..|steps| - 1]);
      NextKeeps(Run(t, steps[..|steps| - 1]), steps[|steps| - 1]);
    }
  }

  /** What either side dispatches is a prefix of what the other side sealed. */
  lemma DispatchedIsPrefix(ei: nat, si: nat, er: nat, sr: nat, steps: seq<Step>)
    ensures var t := Run(Initial(ei, si, er, sr), steps);
            t.i.dispatched <= t.r.sealed && t.r.dispatched <= t.i.sealed
  {
    RunInv(Initial(ei, si, er, sr), steps);
  }

  /** When both sides are established their ciphers are cross-matched and the
      two directions never share a key. */
  lemma CiphersCrossMatched(ei: nat, si: nat, er: nat, sr: nat, steps: seq<Step>)
    ensures var t := Run(Initial(ei, si, er, sr), steps);
            t.i.s.keys.established && t.r.s.keys.established ==>
              && t.i.s.keys.send.Some? && t.i.s.keys.recv.Some? && t.r.s.keys.send.Some? && t.r.s.keys.recv.Some?
              && t.i.s.keys.send.value.key == t.r.s.keys.recv.value.key
              && t.r.s.keys.send.value.key == t.i.s.keys.recv.value.key
              && t.i.s.keys.send.value.key != t.r.s.keys.send.value.key
  {
    RunInv(Initial(ei, si, er, sr), steps);
    var t := Run(Initial(ei, si, er, sr), steps);
    if t.i.s.keys.established && t.r.s.keys.established {
      SameTranscript(t);
    }
  }

  /** Each side's last message answers all that the other has heard. */
  lemma SameTranscript(t: System)
    requires Inv(t) && t.i.s.keys.established && t.r.s.keys.established
    ensures t.i.s.transcript == t.r.s.transcript
  {
    assert FrameOk(t.r.s.transcript[2], t.i) && t.r.s.transcript[2].Confirm?;
    assert t.r.s.transcript == t.r.s.transcript[..2] + [t.r.s.transcript[2]];
    assert t.i.s.transcript == t.i.s.transcript[..2] + [t.i.s.transcript[2]];
  }

  /** Nothing is sealed before the handshake completes, and the frames the
      handshake read stand before those the transport loop tried to open. */
  ghost predicate Separate(e: Endpoint) {
    && (!e.s.keys.established ==> e.sealed == [] && e.dispatched == [] && e.tried == [])
    && e.arrived == e.handshake + e.tried + e.s.inbound
    && (e.s.keys.established ==> |e.handshake| == if e.s.role.initiator then 1 else 2)
    && (e.s.keys.established ==> forall f | f in e.handshake :: !f.Sealed?)
  }

  lemma HandshakeSeparate(ei: nat, si: nat, er: nat, sr: nat, steps: seq<Step>)
    ensures var t := Run(Initial(ei, si, er, sr), steps); Separate(t.i) && Separate(t.r)
  {
    RunInv(Initial(ei, si, er, sr), steps);
    InvSeparates(Run(Initial(ei, si, er, sr), steps));
  }

  lemma InvSeparates(t: System)
    requires Inv(t)
    ensures Separate(t.i) && Separate(t.r)
  {
    if t.r.s.keys.established {
      assert FrameOk(t.r.s.transcript[2], t.i);
      assert t.r.s.transcript[0] == t.r.s.transcript[..2][0] == t.i.s.transcript[..2][0];
    }
  }

  /** No key and counter ever seal two different plaintexts. */
  lemma NonceNeverReused(ei: nat, si: nat, er: nat, sr: nat, steps: seq<Step>, f: Frame, g: Frame)
    requires var t := Run(Initial(ei, si, er, sr), steps);
             var sent := t.i.net.frames + t.r.net.frames; f in sent && g in sent
    requires f.Sealed? && g.Sealed? && f.key == g.key && f.counter == g.counter
    ensures f == g
  {
    RunInv(Initial(ei, si, er, sr), steps);
    var t := Run(Initial(ei, si, er, sr), steps);
    assert forall x | x in t.i.net.frames :: FrameOk(x, t.i);
    assert forall x | x in t.r.net.frames :: FrameOk(x, t.r);
  }

  ghost predicate SealedNoMore(e: Endpoint, e': Endpoint) {
    e.s.ending.closed ==> e'.s.ending.closed && e'.sealed == e.sealed
  }

  lemma ClosedSealsNothing(me: Endpoint, peer: Endpoint, ev: Event)
    ensures SealedNoMore(me, Act(me, peer, ev))
  {
  }

  lemma {:induction false} ClosedIsFinal(t: System, steps: seq<Step>)
    ensures SealedNoMore(t.i, Run(t, steps).i) && SealedNoMore(t.r, Run(t, steps).r)
    decreases |steps|
  {
    if steps != [] {
      ClosedIsFinal(t, steps[..|steps| - 1]);
      var u, last := Run(t, steps[..|steps| - 1]), steps[|steps| - 1];
      ClosedSealsNothing(u.i, u.r, last.event);
      ClosedSealsNothing(u.r, u.i, last.event);
    }
  }

  /** Once a sealed frame was given up, that side never seals again. */
  lemma AbandonedIsFinal(ei: nat, si: nat, er: nat, sr: nat, before: seq<Step>, after: seq<Step>)
    ensures var t := Run(Initial(ei, si, er, sr), before);
            var u := Run(t, after);
            && (t.i.abandoned ==> u.i.sealed == t.i.sealed)
            && (t.r.abandoned ==> u.r.sealed == t.r.sealed)
  {
    RunInv(Initial(ei, si, er, sr), before);
    ClosedIsFinal(Run(Initial(ei, si, er, sr), before), after);
  }

  lemma RunLast(t: System, steps: seq<Step>, step: Step)
    ensures Run(t, steps + [step]) == Next(Run(t, steps), step)
  {
    assert (steps + [step])[..|steps|] == steps;
  }

  // ------------------------------------------------------ failures are final

  /** How many of the peer's handshake frames a transcript has taken in. */
  function Heard(s: Session): nat {
    if s.role.initiator then (if |s.transcript| >= 2 then 1 else 0)
    else if |s.transcript| >= 3 then 2 else if |s.transcript| >= 1 then 1 else 0
  }

  ghost predicate Failed(s: Session) { s.phase.Ended? && s.ending.closed && s.ending.failed.Some? }

  /** The k-th frame tried is the k-th handed on, sealed under the receiving
      key with its place as counter. */
  ghost predicate InPlace(e: Endpoint, k: nat)
    requires k < |e.dispatched| <= |e.tried|
  {
    e.s.keys.recv.Some? && e.tried[k] == Sealed(e.s.keys.recv.value.key, k, e.dispatched[k])
  }

  ghost predicate TriedOk(e: Endpoint) {
    && |e.dispatched| <= |e.tried| <= |e.dispatched| + 1
    && (forall k | 0 <= k < |e.dispatched| :: InPlace(e, k))
    && (|e.tried| > |e.dispatched| ==> Failed(e.s))
  }

  /** A frame that was read and neither continued the handshake nor was handed
      on is the last one read, and the session has failed. */
  ghost predicate FailStop(e: Endpoint) {
    && TriedOk(e) && Heard(e.s) <= |e.handshake| <= Heard(e.s) + 1 && (|e.handshake| > Heard(e.s) ==> Failed(e.s))
    && (e.s.phase.Ended? ==> e.s.ending.closed) && (e.s.ending.closed <==> e.s.ending.failed.Some?)
  }

  lemma HandshakeStops(me: Endpoint, peer: Endpoint, script: seq<Attempt>)
    requires EndpointOk(me) && FailStop(me) && KeysOk(Act(me, peer, HandshakeTurn(script)).s)
    ensures FailStop(Act(me, peer, HandshakeTurn(script)))
  {
  }

  /** Nothing was read, and the session may have ended. */
  ghost predicate NothingRead(me: Endpoint, e: Endpoint) {
    && e.tried == me.tried && e.dispatched == me.dispatched && e.handshake == me.handshake && Heard(e.s) == Heard(me.s)
    && e.s.keys.recv == me.s.keys.recv && e.s.keys.established == me.s.keys.established
    && (e.s.phase.Ended? ==> e.s.ending.closed) && (e.s.ending.closed <==> e.s.ending.failed.Some?)
    && (Failed(me.s) ==> Failed(e.s))
  }

  lemma OtherReads(me: Endpoint, peer: Endpoint, ev: Event)
    requires !ev.HandshakeTurn? && !ev.TransportTurn? && KeysOk(me.s)
    requires (me.s.phase.Ended? ==> me.s.ending.closed) && (me.s.ending.closed <==> me.s.ending.failed.Some?)
    ensures NothingRead(me, Act(me, peer, ev))
  {
  }

  lemma ReadsStop(me: Endpoint, e: Endpoint)
    requires FailStop(me) && NothingRead(me, e)
    ensures FailStop(e)
  {
    assert forall k | 0 <= k < |me.dispatched| :: InPlace(e, k) <==> InPlace(me, k);
  }

  lemma GaveStops(me: Endpoint, e: Endpoint)
    requires FailStop(me) && Gave(me, e) && e.s.ending.failed.Some?
    ensures FailStop(e)
  {
    assert forall k | 0 <= k < |me.dispatched| :: InPlace(me, k) ==> InPlace(e, k);
  }

  /** The transport loop handed on the frame it read. */
  ghost predicate HandedOn(me: Endpoint, e: Endpoint) {
    && me.s.inbound != [] && me.s.keys.recv.Some? && me.s.inbound[0].Sealed? && e.s.keys.recv.Some?
    && me.s.inbound[0].key == me.s.keys.recv.value.key == e.s.keys.recv.value.key && me.s.inbound[0].counter == me.s.keys.recv.value.n
    && e == me.(s := e.s, tried := me.tried + [me.s.inbound[0]], dispatched := me.dispatched + [me.s.inbound[0].plain])
    && e.s == me.s.(inbound := me.s.inbound[1..], keys := me.s.keys.(recv := e.s.keys.recv))
  }

  lemma HandedOnStops(me: Endpoint, e: Endpoint)
    requires FailStop(me) && me.s.phase.Transport? && HandedOn(me, e) && me.s.keys.recv.value.n == |me.dispatched|
    ensures FailStop(e)
  {
    assert forall k | 0 <= k < |me.dispatched| :: InPlace(me, k) ==> InPlace(e, k);
  }

  lemma TransportStops(me: Endpoint, peer: Endpoint, parses: bool)
    requires EndpointOk(me) && FailStop(me)
    ensures FailStop(Act(me, peer, TransportTurn(parses)))
  {
    var e := Act(me, peer, TransportTurn(parses));
    if !me.s.phase.Transport? || me.s.inbound == [] {
      ReadsStop(me, e);
    } else if e.dispatched == me.dispatched {
      GaveStops(me, e);
    } else {
      HandedOnStops(me, e);
    }
  }

  lemma ActStops(me: Endpoint, peer: Endpoint, ev: Event)
    requires EndpointOk(me) && EndpointOk(peer) && HeardFrom(me, peer) && FailStop(me)
    ensures KeysOk(Act(me, peer, ev).s) && FailStop(Act(me, peer, ev))
  {
    ActKeeps(me, peer, ev);
    match ev
    case HandshakeTurn(script) => HandshakeStops(me, peer, script);
    case TransportTurn(parses) => TransportStops(me, peer, parses);
    case _ =>
      OtherReads(me, peer, ev);
      ReadsStop(me, Act(me, peer, ev));
  }

  lemma {:induction false} RunStops(t: System, steps: seq<Step>)
    requires Inv(t) && FailStop(t.i) && FailStop(t.r)
    ensures var u := Run(t, steps); Inv(u) && FailStop(u.i) && FailStop(u.r)
    decreases |steps|
  {
    if steps != [] {
      var front, last := Run(t, steps[..|steps| - 1]), steps[|steps| - 1];
      RunStops(t, steps[..|steps| - 1]);
      NextKeeps(front, last);
      if last.atInitiator {
        ActStops(front.i, front.r, last.event);
      } else {
        ActStops(front.r, front.i, last.event);
      }
    }
  }

  /** In every run, on either side: a frame that does not open, does not parse
      or does not continue the handshake fails the session, and nothing is read
      after it. */
  lemma FailuresStop(ei: nat, si: nat, er: nat, sr: nat, steps: seq<Step>)
    ensures var t := Run(Initial(ei, si, er, sr), steps);
            KeysOk(t.i.s) && KeysOk(t.r.s) && FailStop(t.i) && FailStop(t.r)
  {
    RunStops(Initial(ei, si, er, sr), steps);
  }

  /** An ended side reads nothing more, and the first error stays. */
  ghost predicate StaysEnded(e: Endpoint, e': Endpoint) {
    && (e.s.phase.Ended? ==>
          e'.s.phase.Ended? && e'.tried == e.tried && e'.handshake == e.handshake && e'.dispatched == e.dispatched)
    && (e.s.ending.failed.Some? ==> e'.s.ending.failed == e.s.ending.failed)
  }

  lemma ActStaysEnded(me: Endpoint, peer: Endpoint, ev: Event)
    ensures StaysEnded(me, Act(me, peer, ev))
  {
  }

  lemma {:induction false} EndedIsFinal(t: System, steps: seq<Step>)
    ensures StaysEnded(t.i, Run(t, steps).i) && StaysEnded(t.r, Run(t, steps).r)
    decreases |steps|
  {
    if steps != [] {
      EndedIsFinal(t, steps[..|steps| - 1]);
      var u, last := Run(t, steps[..|steps| - 1]), steps[|steps| - 1];
      ActStaysEnded(u.i, u.r, last.event);
      ActStaysEnded(u.r, u.i, last.event);
    }
  }

  // -------------------------------------------------------- one sealed write

  /** The link takes the frame before the write is given up. */
  ghost predicate TakenAt(script: seq<Attempt>, k: nat) {
    k < |script| && script[k].Landed? && forall j | 0 <= j < k :: script[j].Down?
  }

  lemma TakenLater(script: seq<Attempt>, k: nat)
    requires script != [] && script[0].Down?
    ensures TakenAt(script, k + 1) <==> TakenAt(script[1..], k)
  {
    if TakenAt(script[1..], k) {
      forall j | 0 <= j < k + 1
        ensures script[j].Down?
      {
        assert j > 0 ==> script[j] == script[1..][j - 1];
      }
    }
  }

  lemma {:induction false} ShipLandsIff(net: Wire, f: Frame)
    ensures Ship(net, f).1 <==> exists k :: TakenAt(net.script, k)
    decreases |net.script|
  {
    if net.script != [] {
      var rest := net.script[1..];
      match net.script[0]
      case Landed => assert TakenAt(net.script, 0);
      case GivenUp(_) => assert forall k | TakenAt(net.script, k) :: k == 0;
      case Down(left) =>
        ShipLandsIff(Wire(if left then net.frames + [f] else net.frames, rest), f);
        assert !TakenAt(net.script, 0);
        if k: nat :| TakenAt(net.script, k) {
          TakenLater(net.script, k - 1);
        }
        if k: nat :| TakenAt(rest, k) {
          TakenLater(net.script, k);
        }
    }
  }

  /** A write succeeds exactly on an open, established session whose counter has
      room and whose link takes the frame in time. */
  lemma WriteOkIff(s: Session, net: Wire, plain: Plain)
    ensures Write(s, net, plain).status == Ok <==>
              && !s.ending.closed && s.keys.established && s.keys.send.Some? && s.keys.send.value.n < 0xFFFF_FFFF_FFFF_FFFF
              && exists k :: TakenAt(net.script, k)
    ensures Write(s, net, plain).status == Ok ==>
              Sealed(s.keys.send.value.key, s.keys.send.value.n, plain) in Write(s, net, plain).net.frames
  {
    if s.keys.send.Some? {
      ShipLandsIff(net, Sealed(s.keys.send.value.key, s.keys.send.value.n, plain));
    }
  }

  // --------------------------------------------------- one step, in each role

  ghost predicate Shipped(script: seq<Attempt>) { exists k :: TakenAt(script, k) }

  /** The frame continues the handshake of a side that waits for it. */
  predicate Continues(s: Session, f: Frame) {
    match s.phase
    case AwaitHello => true
    case AwaitReply => f.Reply? && f.heard == s.transcript
    case AwaitConfirm => f.Confirm? && f.heard == s.transcript
    case _ => false
  }

  predicate Answered(s: Session) { s.phase.AwaitHello? || s.phase.AwaitReply? }

  function PhaseAfter(phase: Phase): Phase {
    match phase
    case Start => AwaitReply
    case AwaitHello => AwaitConfirm
    case _ => Transport
  }

  /** The initiator goes on exactly when its first message is taken in time;
      otherwise the session fails. */
  lemma StartsIff(me: Endpoint, peer: Endpoint, script: seq<Attempt>)
    requires me.s.phase.Start?
    ensures var s := Act(me, peer, StartHandshake(script)).s; if Shipped(script) then s.phase.AwaitReply? else Failed(s)
  {
    ShipLandsIff(Wire(me.net.frames, script), Hello(me.s.role.ephemeral));
  }

  /** A waiting side goes on exactly when the frame it reads continues the
      handshake and its answer, if there is one, is taken in time; otherwise
      the session fails. It is established exactly from its last step on. */
  lemma HandshakeGoesOnIff(me: Endpoint, peer: Endpoint, script: seq<Attempt>)
    requires Awaiting(me.s) && me.s.inbound != [] && !me.s.keys.established
    ensures var s := Act(me, peer, HandshakeTurn(script)).s;
            if Continues(me.s, me.s.inbound[0]) && (Answered(me.s) ==> Shipped(script))
            then s.phase == PhaseAfter(me.s.phase) && (s.keys.established <==> s.phase.Transport?) else Failed(s)
  {
    var f, net := me.s.inbound[0], Wire(me.net.frames, script);
    ShipLandsIff(net, Reply([f], me.s.role.ephemeral, me.s.role.identity));
    ShipLandsIff(net, Confirm(me.s.transcript + [f], me.s.role.identity));
  }

  /** A frame the peer wrote is buffered exactly while the side has not ended
      and fewer than 512 frames wait. */
  lemma BufferedIff(me: Endpoint, peer: Endpoint, i: nat)
    ensures Act(me, peer, Arrive(i)).arrived ==
              if i < |peer.net.frames| && !me.s.phase.Ended? && |me.s.inbound| < 512 then me.arrived + [peer.net.frames[i]] else me.arrived
  {
  }

  /** With nothing left to read the transport loop ends exactly when the session
      was closed. */
  lemma IdleEndsIff(me: Endpoint, peer: Endpoint, parses: bool)
    requires me.s.phase.Transport? && me.s.inbound == []
    ensures var e := Act(me, peer, TransportTurn(parses)); e == me.(s := e.s) && (e.s.phase.Ended? <==> me.s.ending.closed)
  {
  }
}
