/** A relay without faults: in every interleaving in which frames arrive in
    order and none is lost, both sides complete the handshake and dispatch
    everything the other sealed. */
module SecureFlow {
  import opened Bytes
  import opened Secure
  import opened SecureRuns

  /** A write that may find the link down but lands, without leaving twice. */
  ghost predicate Lands(script: seq<Attempt>)
    decreases |script|
  {
    script != [] && (script[0] == Landed || (script[0] == Down(false) && Lands(script[1..])))
  }

  lemma {:induction false} ShipLands(net: Wire, f: Frame)
    requires Lands(net.script)
    ensures Ship(net, f).1 && Ship(net, f).0.frames == net.frames + [f]
    decreases |net.script|
  {
    if net.script[0] != Landed {
      ShipLands(Wire(net.frames, net.script[1..]), f);
    }
  }

  /** Writes land, frames arrive one after the other, plaintexts parse, nobody
      closes or times out. */
  ghost predicate Orderly(me: Endpoint, ev: Event) {
    match ev
    case StartHandshake(script) => Lands(script)
    case HandshakeTurn(script) => Lands(script)
    case HandshakeTimeout => false
    case Arrive(i) => i == |me.arrived|
    case TransportTurn(parses) => parses
    case Send(_, script) => Lands(script)
    case CloseSession => false
  }

  ghost predicate OrderlyStep(t: System, step: Step) { Orderly(if step.atInitiator then t.i else t.r, step.event) }

  ghost predicate OrderlyRun(t: System, steps: seq<Step>)
    decreases |steps|
  {
    steps != [] ==> OrderlyRun(t, steps[..|steps| - 1]) && OrderlyStep(Run(t, steps[..|steps| - 1]), steps[|steps| - 1])
  }

  // ------------------------------------------------------- what such runs keep

  /** The handshake frames an endpoint has written. */
  function Hands(s: Session): seq<Frame> {
    if s.role.initiator then (if |s.transcript| >= 1 then [s.transcript[0]] else []) + (if |s.transcript| == 3 then [s.transcript[2]] else [])
    else if |s.transcript| >= 2 then [s.transcript[1]] else []
  }

  function SealedFrames(key: Key, plains: seq<Plain>): seq<Frame> {
    seq(|plains|, i requires 0 <= i < |plains| => Sealed(key, i, plains[i]))
  }

  /** The frames on the wire: the handshake, then the sealed plaintexts in order. */
  ghost predicate WireOk(e: Endpoint)
    requires KeysOk(e.s)
  {
    && |e.sealed| <= NONCE_LIMIT
    && e.net.frames == Hands(e.s) + if e.s.keys.established then SealedFrames(e.s.keys.send.value.key, e.sealed) else []
  }

  ghost predicate Running(e: Endpoint) { !e.s.ending.closed && !e.s.phase.Ended? && |e.tried| == |e.dispatched| }

  /** The two transcripts are the same as far as both go. */
  ghost predicate Agree(i: Session, r: Session) { i.transcript <= r.transcript || r.transcript <= i.transcript }

  ghost predicate Smooth(t: System) {
    && Inv(t) && Running(t.i) && Running(t.r) && WireOk(t.i) && WireOk(t.r)
    && t.i.arrived <= t.r.net.frames && t.r.arrived <= t.i.net.frames && Agree(t.i.s, t.r.s)
  }

  // -------------------------------------------------------------- the handshake

  lemma StartActs(me: Endpoint, peer: Endpoint, script: seq<Attempt>)
    requires me.s.phase.Start? && Lands(script)
    ensures var e, m1 := Act(me, peer, StartHandshake(script)), Hello(me.s.role.ephemeral);
            e == me.(s := me.s.(transcript := [m1], phase := AwaitReply), net := e.net) && e.net.frames == me.net.frames + [m1]
  {
    ShipLands(Wire(me.net.frames, script), Hello(me.s.role.ephemeral));
  }

  lemma StartedSmooth(t: System, u: System, m1: Frame)
    requires Smooth(t) && t.i.s.phase.Start? && Inv(u) && t.r.s.transcript == [] && u.r == t.r
    requires u.i == t.i.(s := t.i.s.(transcript := [m1], phase := AwaitReply), net := u.i.net) && u.i.net.frames == t.i.net.frames + [m1]
    ensures Smooth(u)
  {
    assert t.i.net.frames == [];
  }

  lemma StartSmooth(t: System, script: seq<Attempt>)
    requires Smooth(t) && t.i.s.phase.Start? && Lands(script)
    ensures Smooth(Next(t, Step(true, StartHandshake(script))))
  {
    ResponderBehind(t);
    NextKeeps(t, Step(true, StartHandshake(script)));
    StartActs(t.i, t.r, script);
    StartedSmooth(t, Next(t, Step(true, StartHandshake(script))), Hello(t.i.s.role.ephemeral));
  }

  /** The responder has nothing to go on before the initiator starts. */
  lemma ResponderBehind(t: System)
    requires Smooth(t) && |t.i.s.transcript| == 0
    ensures t.r.s.transcript == []
  {
  }

  /** The next frame the responder reads first is the initiator's hello. */
  lemma FirstIsHello(t: System)
    requires Smooth(t) && t.r.s.phase.AwaitHello? && t.r.s.inbound != []
    ensures |t.i.s.transcript| == 1 && t.r.s.inbound[0] == t.i.s.transcript[0]
  {
    assert t.r.arrived == t.r.s.inbound;
    assert t.i.net.frames[0] == t.r.s.inbound[0];
  }

  lemma HelloLands(me: Endpoint, peer: Endpoint, script: seq<Attempt>)
    requires me.s.phase.AwaitHello? && me.s.inbound != [] && Lands(script)
    ensures var e, f := Act(me, peer, HandshakeTurn(script)), me.s.inbound[0];
            var m2 := Reply([f], me.s.role.ephemeral, me.s.role.identity);
            && e == me.(s := me.s.(inbound := me.s.inbound[1..], transcript := [f, m2], phase := AwaitConfirm),
                        net := e.net, handshake := me.handshake + [f])
            && e.net.frames == me.net.frames + [m2]
  {
    ShipLands(Wire(me.net.frames, script), Reply([me.s.inbound[0]], me.s.role.ephemeral, me.s.role.identity));
  }

  lemma HelloedSmooth(t: System, u: System, f: Frame, m2: Frame)
    requires Smooth(t) && t.r.s.phase.AwaitHello? && t.r.s.inbound != [] && Inv(u) && u.i == t.i && t.i.s.transcript == [f]
    requires u.r == t.r.(s := t.r.s.(inbound := t.r.s.inbound[1..], transcript := [f, m2], phase := AwaitConfirm),
                         net := u.r.net, handshake := t.r.handshake + [f])
    requires u.r.net.frames == t.r.net.frames + [m2]
    ensures Smooth(u)
  {
    assert t.r.net.frames == [];
  }

  lemma HelloSmooth(t: System, script: seq<Attempt>)
    requires Smooth(t) && t.r.s.phase.AwaitHello? && t.r.s.inbound != [] && Lands(script)
    ensures Smooth(Next(t, Step(false, HandshakeTurn(script))))
  {
    var f := t.r.s.inbound[0];
    FirstIsHello(t);
    assert t.i.s.transcript == [f];
    NextKeeps(t, Step(false, HandshakeTurn(script)));
    HelloLands(t.r, t.i, script);
    HelloedSmooth(t, Next(t, Step(false, HandshakeTurn(script))), f, Reply([f], t.r.s.role.ephemeral, t.r.s.role.identity));
  }

  /** The next frame the initiator reads first is the reply to its hello. */
  lemma FirstIsReply(t: System)
    requires Smooth(t) && t.i.s.phase.AwaitReply? && t.i.s.inbound != []
    ensures |t.r.s.transcript| == 2 && t.i.s.inbound[0] == t.r.s.transcript[1]
    ensures t.r.s.transcript[1].Reply? && t.r.s.transcript[1].heard == t.i.s.transcript && t.r.s.transcript[..1] == t.i.s.transcript
  {
    assert t.i.arrived == t.i.s.inbound;
    assert t.r.net.frames[0] == t.i.s.inbound[0];
    assert |t.r.s.transcript| >= 2;
    assert t.i.s.transcript <= t.r.s.transcript;
    assert t.r.s.transcript[..1] == t.i.s.transcript;
  }

  lemma ReplyLands(me: Endpoint, peer: Endpoint, script: seq<Attempt>)
    requires me.s.phase.AwaitReply? && me.s.inbound != [] && Lands(script)
    requires me.s.inbound[0].Reply? && me.s.inbound[0].heard == me.s.transcript
    ensures var e, f := Act(me, peer, HandshakeTurn(script)), me.s.inbound[0];
            var m3 := Confirm(me.s.transcript + [f], me.s.role.identity);
            && e == me.(s := Install(me.s.(inbound := me.s.inbound[1..], transcript := me.s.transcript + [f, m3])),
                        net := e.net, handshake := me.handshake + [f])
            && e.net.frames == me.net.frames + [m3]
  {
    ShipLands(Wire(me.net.frames, script), Confirm(me.s.transcript + [me.s.inbound[0]], me.s.role.identity));
  }

  lemma RepliedSmooth(t: System, u: System, f: Frame, m3: Frame)
    requires Smooth(t) && t.i.s.phase.AwaitReply? && t.i.s.inbound != [] && Inv(u) && u.r == t.r
    requires t.r.s.transcript == t.i.s.transcript + [f] && |t.i.s.transcript| == 1
    requires u.i == t.i.(s := Install(t.i.s.(inbound := t.i.s.inbound[1..], transcript := t.i.s.transcript + [f, m3])),
                         net := u.i.net, handshake := t.i.handshake + [f])
    requires u.i.net.frames == t.i.net.frames + [m3]
    ensures Smooth(u)
  {
    assert t.i.sealed == [] && SealedFrames(u.i.s.keys.send.value.key, []) == [];
    assert u.i.s.transcript == t.r.s.transcript + [m3];
    assert t.i.net.frames == [t.i.s.transcript[0]];
  }

  lemma ReplySmooth(t: System, script: seq<Attempt>)
    requires Smooth(t) && t.i.s.phase.AwaitReply? && t.i.s.inbound != [] && Lands(script)
    ensures Smooth(Next(t, Step(true, HandshakeTurn(script))))
  {
    var f := t.i.s.inbound[0];
    FirstIsReply(t);
    assert t.r.s.transcript == t.i.s.transcript + [f];
    NextKeeps(t, Step(true, HandshakeTurn(script)));
    ReplyLands(t.i, t.r, script);
    RepliedSmooth(t, Next(t, Step(true, HandshakeTurn(script))), f, Confirm(t.i.s.transcript + [f], t.i.s.role.identity));
  }

  /** The second frame the responder reads is the confirmation. */
  lemma SecondIsConfirm(t: System)
    requires Smooth(t) && t.r.s.phase.AwaitConfirm? && t.r.s.inbound != []
    ensures |t.i.s.transcript| == 3 && t.r.s.inbound[0] == t.i.s.transcript[2]
    ensures t.i.s.transcript[2].Confirm? && t.i.s.transcript[2].heard == t.r.s.transcript && t.i.s.transcript[..2] == t.r.s.transcript
  {
    assert t.r.tried == [] && |t.r.handshake| == 1;
    assert t.r.arrived[1] == t.r.s.inbound[0];
    assert t.i.net.frames[1] == t.r.s.inbound[0];
    assert |t.i.s.transcript| == 3;
    assert t.r.s.transcript <= t.i.s.transcript;
    assert t.i.s.transcript[..2] == t.r.s.transcript;
  }

  lemma ConfirmSmooth(t: System, script: seq<Attempt>)
    requires Smooth(t) && t.r.s.phase.AwaitConfirm? && t.r.s.inbound != []
    ensures Smooth(Next(t, Step(false, HandshakeTurn(script))))
  {
    SecondIsConfirm(t);
    NextKeeps(t, Step(false, HandshakeTurn(script)));
    var u := Next(t, Step(false, HandshakeTurn(script)));
    assert u.r.s.transcript == t.r.s.transcript + [t.r.s.inbound[0]];
    assert u.r.s.transcript == t.i.s.transcript;
    assert u.r.sealed == [] && SealedFrames(u.r.s.keys.send.value.key, []) == [];
  }

  // ---------------------------------------------------------- either endpoint

  /** One side of a smooth system. */
  ghost predicate SideOk(me: Endpoint, peer: Endpoint)
    requires KeysOk(me.s)
  {
    Running(me) && WireOk(me) && me.arrived <= peer.net.frames && peer.arrived <= me.net.frames
  }

  lemma ArriveSide(me: Endpoint, peer: Endpoint, i: nat)
    requires KeysOk(me.s) && SideOk(me, peer) && i == |me.arrived|
    ensures var e := Act(me, peer, Arrive(i)); KeysOk(e.s) && SideOk(e, peer) && e.s.transcript == me.s.transcript
  {
  }

  lemma SealedMore(key: Key, plains: seq<Plain>, p: Plain)
    ensures SealedFrames(key, plains + [p]) == SealedFrames(key, plains) + [Sealed(key, |plains|, p)]
  {
  }

  lemma SendSide(me: Endpoint, peer: Endpoint, plain: Plain, script: seq<Attempt>)
    requires EndpointOk(me) && SideOk(me, peer) && Lands(script)
    ensures var e := Act(me, peer, Send(plain, script));
            KeysOk(e.s) && SideOk(e, peer) && e.s.transcript == me.s.transcript
  {
    if me.s.keys.established && me.s.keys.send.value.n < NONCE_LIMIT {
      var c := me.s.keys.send.value;
      ShipLands(Wire(me.net.frames, script), Sealed(c.key, c.n, plain));
      SealedMore(c.key, me.sealed, plain);
      var e := Act(me, peer, Send(plain, script));
      assert e.net.frames == Hands(me.s) + (SealedFrames(c.key, me.sealed) + [Sealed(c.key, c.n, plain)]);
    }
  }

  /** The frame the transport loop reads is the next one the peer sealed. */
  lemma NextIsSealed(me: Endpoint, peer: Endpoint)
    requires EndpointOk(me) && EndpointOk(peer) && me.s.role.initiator != peer.s.role.initiator
    requires SideOk(me, peer) && SideOk(peer, me) && me.s.phase.Transport? && me.s.inbound != []
    ensures peer.s.keys.established && |me.tried| < |peer.sealed|
    ensures me.s.inbound[0] == Sealed(peer.s.keys.send.value.key, |me.tried|, peer.sealed[|me.tried|])
  {
    var k := |me.handshake| + |me.tried|;
    assert |me.handshake| == if me.s.role.initiator then 1 else 2;
    assert me.arrived[k] == me.s.inbound[0] && peer.net.frames[k] == me.arrived[k];
    assert |Hands(peer.s)| <= |me.handshake|;
    assert peer.s.keys.established ==> |Hands(peer.s)| == |me.handshake|;
  }

  lemma TransportSide(me: Endpoint, peer: Endpoint)
    requires EndpointOk(me) && EndpointOk(peer) && me.s.role.initiator != peer.s.role.initiator
    requires SideOk(me, peer) && SideOk(peer, me) && me.s.phase.Transport? && me.s.inbound != []
    requires peer.s.keys.established ==> peer.s.transcript == me.s.transcript
    ensures var e := Act(me, peer, TransportTurn(true));
            KeysOk(e.s) && SideOk(e, peer) && e.s.transcript == me.s.transcript
  {
    NextIsSealed(me, peer);
    assert peer.s.keys.send.value.n == |peer.sealed|;
  }

  // ------------------------------------------------------------ whole runs

  lemma SidesSmooth(t: System, u: System, atI: bool)
    requires Smooth(t) && Inv(u)
    requires if atI then u.r == t.r && Moved(t.i, u.i, u.r) else u.i == t.i && Moved(t.r, u.r, u.i)
    ensures Smooth(u)
  {
  }

  /** Both established means both have the whole transcript. */
  lemma SameTranscript(t: System)
    requires Smooth(t) && t.i.s.keys.established && t.r.s.keys.established
    ensures t.i.s.transcript == t.r.s.transcript
  {
  }

  /** The endpoint after an event that leaves the transcript alone. */
  ghost predicate Moved(me: Endpoint, e: Endpoint, peer: Endpoint) {
    KeysOk(e.s) && SideOk(e, peer) && e.s.transcript == me.s.transcript
  }

  lemma SideMoves(me: Endpoint, peer: Endpoint, ev: Event)
    requires EndpointOk(me) && EndpointOk(peer) && me.s.role.initiator != peer.s.role.initiator
    requires SideOk(me, peer) && SideOk(peer, me) && Orderly(me, ev)
    requires me.s.keys.established && peer.s.keys.established ==> peer.s.transcript == me.s.transcript
    requires ev.Arrive? || ev.Send? || ev.TransportTurn?
    ensures Moved(me, Act(me, peer, ev), peer)
  {
    match ev
    case Arrive(i) => ArriveSide(me, peer, i);
    case Send(plain, script) => SendSide(me, peer, plain, script);
    case TransportTurn(_) =>
      if me.s.phase.Transport? && me.s.inbound != [] {
        TransportSide(me, peer);
      } else {
        assert Act(me, peer, ev) == me;
      }
  }

  lemma InitiatorMoves(t: System, ev: Event)
    requires Smooth(t) && Orderly(t.i, ev) && (ev.Arrive? || ev.Send? || ev.TransportTurn?)
    ensures Moved(t.i, Act(t.i, t.r, ev), t.r)
  {
    if t.i.s.keys.established && t.r.s.keys.established {
      SameTranscript(t);
    }
    SideMoves(t.i, t.r, ev);
  }

  lemma ResponderMoves(t: System, ev: Event)
    requires Smooth(t) && Orderly(t.r, ev) && (ev.Arrive? || ev.Send? || ev.TransportTurn?)
    ensures Moved(t.r, Act(t.r, t.i, ev), t.i)
  {
    if t.i.s.keys.established && t.r.s.keys.established {
      SameTranscript(t);
    }
    SideMoves(t.r, t.i, ev);
  }

  lemma EitherSmooth(t: System, step: Step)
    requires Smooth(t) && OrderlyStep(t, step)
    requires step.event.Arrive? || step.event.Send? || step.event.TransportTurn?
    ensures Smooth(Next(t, step))
  {
    NextKeeps(t, step);
    if step.atInitiator {
      InitiatorMoves(t, step.event);
    } else {
      ResponderMoves(t, step.event);
    }
    SidesSmooth(t, Next(t, step), step.atInitiator);
  }

  lemma HandshakeSmooth(t: System, step: Step)
    requires Smooth(t) && OrderlyStep(t, step) && (step.event.StartHandshake? || step.event.HandshakeTurn?)
    ensures Smooth(Next(t, step))
  {
    var me := if step.atInitiator then t.i else t.r;
    if step.event.StartHandshake? {
      if me.s.phase.Start? {
        StartSmooth(t, step.event.script);
      }
    } else if Awaiting(me.s) && me.s.inbound != [] {
      if me.s.phase.AwaitHello? {
        HelloSmooth(t, step.event.script);
      } else if me.s.phase.AwaitReply? {
        ReplySmooth(t, step.event.script);
      } else {
        ConfirmSmooth(t, step.event.script);
      }
    }
  }

  lemma {:induction false} RunSmooth(ei: nat, si: nat, er: nat, sr: nat, steps: seq<Step>)
    requires OrderlyRun(Initial(ei, si, er, sr), steps)
    ensures Smooth(Run(Initial(ei, si, er, sr), steps))
    decreases |steps|
  {
    var t := Initial(ei, si, er, sr);
    if steps == [] {
      RunInv(t, []);
    } else {
      var front, last := steps[..|steps| - 1], steps[|steps| - 1];
      RunSmooth(ei, si, er, sr, front);
      if last.event.StartHandshake? || last.event.HandshakeTurn? {
        HandshakeSmooth(Run(t, front), last);
      } else {
        EitherSmooth(Run(t, front), last);
      }
    }
  }

  /** Everything written has arrived and everything that arrived was read. */
  ghost predicate Settled(t: System) {
    && t.i.arrived == t.r.net.frames && t.r.arrived == t.i.net.frames && t.i.s.inbound == [] && t.r.s.inbound == []
  }

  lemma SettledEstablished(t: System)
    requires Smooth(t) && Settled(t) && !t.i.s.phase.Start?
    ensures t.i.s.phase.Transport? && t.r.s.phase.Transport?
  {
    assert |t.i.net.frames| >= 1;
    assert !t.r.s.phase.AwaitHello?;
    assert |t.r.net.frames| >= 1;
    assert !t.i.s.phase.AwaitReply?;
    assert |t.i.net.frames| >= 2;
  }

  lemma SettledSide(me: Endpoint, peer: Endpoint)
    requires EndpointOk(me) && EndpointOk(peer) && me.s.role.initiator != peer.s.role.initiator && SideOk(me, peer) && SideOk(peer, me)
    requires me.arrived == peer.net.frames && me.s.inbound == [] && me.s.phase.Transport? && peer.s.phase.Transport?
    ensures |me.dispatched| == |peer.sealed|
  {
    assert |me.handshake| == |Hands(peer.s)|;
  }

  /** In every interleaving on a relay without faults no session fails, and once
      everything written has been read both sides are established and each has
      dispatched exactly what the other sealed. */
  lemma FaultFreeDelivery(ei: nat, si: nat, er: nat, sr: nat, steps: seq<Step>)
    requires OrderlyRun(Initial(ei, si, er, sr), steps)
    ensures var t := Run(Initial(ei, si, er, sr), steps);
            && !t.i.s.ending.closed && !t.r.s.ending.closed
            && (Settled(t) && !t.i.s.phase.Start? ==>
                  && t.i.s.keys.established && t.r.s.keys.established
                  && t.i.dispatched == t.r.sealed && t.r.dispatched == t.i.sealed)
  {
    var t := Run(Initial(ei, si, er, sr), steps);
    RunSmooth(ei, si, er, sr, steps);
    if Settled(t) && !t.i.s.phase.Start? {
      SettledEstablished(t);
      SettledSide(t.i, t.r);
      SettledSide(t.r, t.i);
    }
  }

  // ------------------------------------------------------------- progress

  /** Handshake frames still to be written once the initiator has started. */
  function Answers(t: System): nat {
    (if t.r.s.phase.AwaitHello? then 1 else 0) + (if t.i.s.phase.AwaitReply? then 1 else 0)
  }

  /** What is left to do before everything written is read. */
  ghost function Left(t: System): nat
    requires Smooth(t)
  {
    2 * (|t.r.net.frames| - |t.i.arrived|) + 2 * (|t.i.net.frames| - |t.r.arrived|) + |t.i.s.inbound| + |t.r.s.inbound| + 3 * Answers(t)
  }

  /** An orderly step that brings the end nearer. */
  ghost predicate Nearer(t: System, step: Step)
    requires Smooth(t)
  {
    OrderlyStep(t, step) && Smooth(Next(t, step)) && Left(Next(t, step)) < Left(t)
    && (t.i.s.phase.Start? <==> Next(t, step).i.s.phase.Start?)
  }

  lemma ArriveAdds(me: Endpoint, peer: Endpoint)
    requires |me.arrived| < |peer.net.frames| && Running(me) && me.s.inbound == []
    ensures var e := Act(me, peer, Arrive(|me.arrived|));
            |e.arrived| == |me.arrived| + 1 && |e.s.inbound| == 1 && e.net == me.net && e.s.phase == me.s.phase
  {
  }

  lemma InitiatorHears(t: System)
    requires Smooth(t) && t.i.s.inbound == [] && |t.i.arrived| < |t.r.net.frames|
    ensures Nearer(t, Step(true, Arrive(|t.i.arrived|)))
  {
    EitherSmooth(t, Step(true, Arrive(|t.i.arrived|)));
    ArriveAdds(t.i, t.r);
  }

  lemma ResponderHears(t: System)
    requires Smooth(t) && t.r.s.inbound == [] && |t.r.arrived| < |t.i.net.frames|
    ensures Nearer(t, Step(false, Arrive(|t.r.arrived|)))
  {
    EitherSmooth(t, Step(false, Arrive(|t.r.arrived|)));
    ArriveAdds(t.r, t.i);
  }

  lemma TransportNearer(t: System, atI: bool)
    requires Smooth(t) && (if atI then t.i else t.r).s.inbound != [] && (if atI then t.i else t.r).s.phase.Transport?
    ensures Nearer(t, Step(atI, TransportTurn(true)))
  {
    EitherSmooth(t, Step(atI, TransportTurn(true)));
    if atI {
      NextIsSealed(t.i, t.r);
    } else {
      NextIsSealed(t.r, t.i);
    }
  }

  lemma HelloNearer(t: System)
    requires Smooth(t) && t.r.s.inbound != [] && t.r.s.phase.AwaitHello?
    ensures Nearer(t, Step(false, HandshakeTurn([Landed])))
  {
    HelloSmooth(t, [Landed]);
    ShipLands(Wire(t.r.net.frames, [Landed]), Reply([t.r.s.inbound[0]], t.r.s.role.ephemeral, t.r.s.role.identity));
  }

  lemma ReplyNearer(t: System)
    requires Smooth(t) && t.i.s.inbound != [] && t.i.s.phase.AwaitReply?
    ensures Nearer(t, Step(true, HandshakeTurn([Landed])))
  {
    FirstIsReply(t);
    ReplySmooth(t, [Landed]);
    ShipLands(Wire(t.i.net.frames, [Landed]), Confirm(t.i.s.transcript + [t.i.s.inbound[0]], t.i.s.role.identity));
  }

  lemma ConfirmNearer(t: System)
    requires Smooth(t) && t.r.s.inbound != [] && t.r.s.phase.AwaitConfirm?
    ensures Nearer(t, Step(false, HandshakeTurn([Landed])))
  {
    SecondIsConfirm(t);
    ConfirmSmooth(t, [Landed]);
  }

  /** Until everything is read somebody can go on. */
  lemma NobodyStuck(t: System) returns (step: Step)
    requires Smooth(t) && !Settled(t)
    ensures Nearer(t, step)
  {
    if t.i.s.inbound != [] {
      step := Step(true, if t.i.s.phase.Transport? then TransportTurn(true) else HandshakeTurn([Landed]));
      if t.i.s.phase.Transport? {
        TransportNearer(t, true);
      } else {
        StartHearsNothing(t);
        ReplyNearer(t);
      }
    } else if t.r.s.inbound != [] {
      step := Step(false, if t.r.s.phase.Transport? then TransportTurn(true) else HandshakeTurn([Landed]));
      if t.r.s.phase.Transport? {
        TransportNearer(t, false);
      } else if t.r.s.phase.AwaitHello? {
        HelloNearer(t);
      } else {
        ConfirmNearer(t);
      }
    } else if |t.i.arrived| < |t.r.net.frames| {
      step := Step(true, Arrive(|t.i.arrived|));
      InitiatorHears(t);
    } else {
      step := Step(false, Arrive(|t.r.arrived|));
      ResponderHears(t);
    }
  }

  lemma StartHearsNothing(t: System)
    requires Smooth(t) && t.i.s.inbound != []
    ensures !t.i.s.phase.Start?
  {
    if t.i.s.phase.Start? {
      ResponderBehind(t);
      assert false;
    }
  }

  lemma OrderlyMore(t: System, steps: seq<Step>, step: Step)
    requires OrderlyRun(t, steps) && OrderlyStep(Run(t, steps), step)
    ensures OrderlyRun(t, steps + [step])
  {
    assert (steps + [step])[..|steps|] == steps;
  }

  /** Every such run can be continued until everything written has been read. */
  lemma {:induction false} CanSettle(ei: nat, si: nat, er: nat, sr: nat, steps: seq<Step>) returns (all: seq<Step>)
    requires OrderlyRun(Initial(ei, si, er, sr), steps) && Smooth(Run(Initial(ei, si, er, sr), steps))
    ensures steps <= all && OrderlyRun(Initial(ei, si, er, sr), all) && Settled(Run(Initial(ei, si, er, sr), all))
    ensures Run(Initial(ei, si, er, sr), all).i.s.phase.Start? <==> Run(Initial(ei, si, er, sr), steps).i.s.phase.Start?
    decreases Left(Run(Initial(ei, si, er, sr), steps))
  {
    var t := Initial(ei, si, er, sr);
    all := steps;
    if !Settled(Run(t, steps)) {
      var step := NobodyStuck(Run(t, steps));
      OrderlyMore(t, steps, step);
      RunLast(t, steps, step);
      all := CanSettle(ei, si, er, sr, steps + [step]);
    }
  }

  /** Every such run can be continued until the initiator has started. */
  lemma CanStart(ei: nat, si: nat, er: nat, sr: nat, steps: seq<Step>) returns (more: seq<Step>)
    requires OrderlyRun(Initial(ei, si, er, sr), steps) && Smooth(Run(Initial(ei, si, er, sr), steps))
    ensures steps <= more && OrderlyRun(Initial(ei, si, er, sr), more)
    ensures var t := Run(Initial(ei, si, er, sr), more); Smooth(t) && !t.i.s.phase.Start?
  {
    var t := Initial(ei, si, er, sr);
    more := steps;
    if Run(t, steps).i.s.phase.Start? {
      var start := Step(true, StartHandshake([Landed]));
      StartSmooth(Run(t, steps), [Landed]);
      StartActs(Run(t, steps).i, Run(t, steps).r, [Landed]);
      OrderlyMore(t, steps, start);
      RunLast(t, steps, start);
      more := steps + [start];
    }
  }

  /** Every such run can be continued to a state in which both sides are
      established and have dispatched all that the other sealed. */
  lemma EverythingArrives(ei: nat, si: nat, er: nat, sr: nat, steps: seq<Step>) returns (all: seq<Step>)
    requires OrderlyRun(Initial(ei, si, er, sr), steps)
    ensures steps <= all && OrderlyRun(Initial(ei, si, er, sr), all)
    ensures var t := Run(Initial(ei, si, er, sr), all);
            t.i.s.keys.established && t.r.s.keys.established && t.i.dispatched == t.r.sealed && t.r.dispatched == t.i.sealed
  {
    RunSmooth(ei, si, er, sr, steps);
    var started := CanStart(ei, si, er, sr, steps);
    all := CanSettle(ei, si, er, sr, started);
    FaultFreeDelivery(ei, si, er, sr, all);
  }
}
