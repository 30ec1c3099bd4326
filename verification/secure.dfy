/** One endpoint of an end-to-end encrypted channel, after
    linksocks/secure_channel.go: the three-message XX handshake of section 7.5
    of the Noise Protocol Framework (revision 34), then a counter-based cipher
    stream in each direction.

    Cryptography is ideal. A handshake message after the first is bound to the
    transcript it answers and only an equal transcript can read it; a transport
    key is the completed transcript and a direction; a sealed frame opens only
    under its own key and counter. */
module Secure {
  import opened Bytes

  type Plain = seq<int>

  datatype Frame =
    | Hello(ephemeral: nat)
    | Reply(heard: seq<Frame>, ephemeral: nat, identity: nat)
    | Confirm(heard: seq<Frame>, identity: nat)
    | Sealed(key: Key, counter: nat, plain: Plain)

  datatype Key = Key(transcript: seq<Frame>, toResponder: bool)

  datatype Cipher = Cipher(key: Key, n: nat)

  /** The counter value a cipher state refuses to use. */
  const NONCE_LIMIT: nat := 0xFFFF_FFFF_FFFF_FFFF

  const INBOUND_CAPACITY: nat := 512

  /** One attempt at writing a frame: it landed; the link is down and the grace
      window lasts; or the write is given up. A failed attempt may have left. */
  datatype Attempt = Landed | Down(left: bool) | GivenUp(left: bool)

  /** Every frame this endpoint put on the relay, and how coming attempts end. */
  datatype Wire = Wire(frames: seq<Frame>, script: seq<Attempt>)

  datatype Phase = Start | AwaitHello | AwaitReply | AwaitConfirm | Transport | Ended

  datatype Status = Ok | SessionClosed | NotReady | Exhausted | WriteFailed | HandshakeFailed | DecryptFailed | ParseFailed | TimedOut

  /** What an endpoint is from the start. */
  datatype Role = Role(initiator: bool, ephemeral: nat, identity: nat)

  datatype Keys = Keys(send: Option<Cipher>, recv: Option<Cipher>, established: bool)

  datatype Ending = Ending(closed: bool, failed: Option<Status>)

  datatype Session = Session(
    role: Role, phase: Phase, transcript: seq<Frame>, keys: Keys, ending: Ending, inbound: seq<Frame>)

  function NewSession(initiator: bool, ephemeral: nat, identity: nat): Session {
    Session(Role(initiator, ephemeral, identity), if initiator then Start else AwaitHello, [],
            Keys(None, None, false), Ending(false, None), [])
  }

  /** The first error stays; the session counts as closed from here on. */
  function Finish(s: Session, err: Status): Session {
    s.(ending := Ending(true, if s.ending.failed.None? then Some(err) else s.ending.failed))
  }

  /** A session loop that fails also returns. */
  function End(s: Session, err: Status): Session { Finish(s, err).(phase := Ended) }

  /** Retry the same frame until it lands or is given up. */
  function Ship(net: Wire, f: Frame): (r: (Wire, bool))
    ensures net.frames <= r.0.frames
    ensures forall i | |net.frames| <= i < |r.0.frames| :: r.0.frames[i] == f
    ensures r.1 ==> f in r.0.frames
    decreases |net.script|
  {
    if net.script == [] then (net, false)
    else
      var rest := net.script[1..];
      match net.script[0]
      case Landed => (Wire(net.frames + [f], rest), true)
      case Down(left) => Ship(Wire(if left then net.frames + [f] else net.frames, rest), f)
      case GivenUp(left) => (Wire(if left then net.frames + [f] else net.frames, rest), false)
  }

  datatype Result = Result(session: Session, net: Wire, status: Status)

  function Write(s: Session, net: Wire, plain: Plain): Result {
    if s.ending.closed then Result(s, net, SessionClosed)
    else if !s.keys.established || s.keys.send.None? then Result(s, net, NotReady)
    else if s.keys.send.value.n >= NONCE_LIMIT then Result(s, net, Exhausted)
    else
      var c := s.keys.send.value;
      var s1 := s.(keys := s.keys.(send := Some(Cipher(c.key, c.n + 1))));
      var (n, ok) := Ship(net, Sealed(c.key, c.n, plain));
      if ok then Result(s1, n, Ok) else Result(Finish(s1, WriteFailed), n, WriteFailed)
  }

  /** The initiator's opening message. */
  function Begin(s: Session, net: Wire): (Session, Wire) {
    var m1 := Hello(s.role.ephemeral);
    var (n, ok) := Ship(net, m1);
    var s1 := s.(transcript := [m1]);
    (if ok then s1.(phase := AwaitReply) else End(s1, WriteFailed), n)
  }

  /** Each side sends with the cipher that points the other way. */
  function Install(s: Session): Session {
    var initToResp, respToInit := Cipher(Key(s.transcript, true), 0), Cipher(Key(s.transcript, false), 0);
    s.(keys := if s.role.initiator then Keys(Some(initToResp), Some(respToInit), true) else Keys(Some(respToInit), Some(initToResp), true),
       phase := Transport)
  }

  predicate Awaiting(s: Session) { s.phase.AwaitHello? || s.phase.AwaitReply? || s.phase.AwaitConfirm? }

  /** One awaited handshake frame is read, and answered where the pattern says so. */
  function Handshake(s: Session, net: Wire): (Session, Wire) {
    if !Awaiting(s) || s.inbound == [] then (s, net)
    else
      var f := s.inbound[0];
      var s0 := s.(inbound := s.inbound[1..]);
      match s.phase
      case AwaitHello =>
        var m2 := Reply([f], s.role.ephemeral, s.role.identity);
        var (n, ok) := Ship(net, m2);
        var s1 := s0.(transcript := [f, m2]);
        (if ok then s1.(phase := AwaitConfirm) else End(s1, WriteFailed), n)
      case AwaitReply =>
        if f.Reply? && f.heard == s.transcript then
          var m3 := Confirm(s.transcript + [f], s.role.identity);
          var (n, ok) := Ship(net, m3);
          var s1 := s0.(transcript := s.transcript + [f, m3]);
          (if ok then Install(s1) else End(s1, WriteFailed), n)
        else (End(s0, HandshakeFailed), net)
      case _ =>
        if f.Confirm? && f.heard == s.transcript then (Install(s0.(transcript := s.transcript + [f])), net)
        else (End(s0, HandshakeFailed), net)
  }

  predicate HasRoom(s: Session) { |s.inbound| < INBOUND_CAPACITY }

  /** A full buffer blocks the caller, until there is room or the session ends;
      only then is the frame dropped. */
  function Deliver(s: Session, f: Frame): Session
    requires HasRoom(s) || s.ending.closed
  {
    if HasRoom(s) then s.(inbound := s.inbound + [f]) else s
  }

  /** One turn of the transport loop: the frame is opened and handed on. */
  function Receive(s: Session, parses: bool): (Session, Option<Plain>) {
    if s.phase != Transport then (s, None)
    else if s.inbound == [] then (if s.ending.closed then s.(phase := Ended) else s, None)
    else
      var f := s.inbound[0];
      var s0 := s.(inbound := s.inbound[1..]);
      if s.keys.recv.None? then (End(s0, DecryptFailed), None)
      else
        var c := s.keys.recv.value;
        if f.Sealed? && f.key == c.key && f.counter == c.n && c.n < NONCE_LIMIT then
          var s1 := s0.(keys := s0.keys.(recv := Some(Cipher(c.key, c.n + 1))));
          if parses then (s1, Some(f.plain)) else (End(s1, ParseFailed), None)
        else (End(s0, DecryptFailed), None)
  }

  // ------------------------------------------------------ the mutable object

  class Link {
    var frames: seq<Frame>
    var script: seq<Attempt>

    ghost function View(): Wire reads this { Wire(frames, script) }

    method Attempted(f: Frame) returns (a: Attempt)
      modifies this
      ensures old(script) == [] ==> a == GivenUp(false) && View() == old(View())
      ensures old(script) != [] ==> a == old(script)[0] && script == old(script)[1..]
      ensures frames == if a.Landed? || a.left then old(frames) + [f] else old(frames)
    {
      a := GivenUp(false);
      if script != [] {
        a, script := script[0], script[1..];
      }
      if a.Landed? || a.left {
        frames := frames + [f];
      }
    }
  }

  class SecureSession {
    const initiator: bool
    const ephemeral: nat
    const identity: nat
    const link: Link
    var phase: Phase
    var transcript: seq<Frame>
    var send: Option<Cipher>
    var recv: Option<Cipher>
    var established: bool
    var closed: bool
    var failed: Option<Status>
    var inbound: seq<Frame>

    ghost function View(): Session
      reads this
    {
      Session(Role(initiator, ephemeral, identity), phase, transcript, Keys(send, recv, established), Ending(closed, failed), inbound)
    }

    constructor (initiator: bool, ephemeral: nat, identity: nat, link: Link)
      ensures View() == NewSession(initiator, ephemeral, identity) && this.link == link
    {
      this.initiator, this.ephemeral, this.identity, this.link := initiator, ephemeral, identity, link;
      phase, transcript := if initiator then Start else AwaitHello, [];
      send, recv, established, closed, failed, inbound := None, None, false, false, None, [];
    }

    method WriteWithGrace(f: Frame) returns (landed: bool)
      modifies link
      ensures (link.View(), landed) == Ship(old(link.View()), f)
    {
      while true
        invariant Ship(link.View(), f) == Ship(old(link.View()), f)
        decreases |link.script|
      {
        var stop := link.script == [];
        var a := link.Attempted(f);
        if a.Landed? {
          return true;
        }
        if a.GivenUp? || stop {
          return false;
        }
      }
    }

    method FinishWith(err: Status)
      modifies this`failed, this`closed
      ensures View() == Finish(old(View()), err)
    {
      if failed.None? {
        failed := Some(err);
      }
      closed := true;
    }

    method WriteMessage(plain: Plain) returns (status: Status)
      modifies this, link
      ensures Result(View(), link.View(), status) == Write(old(View()), old(link.View()), plain)
    {
      if closed {
        return SessionClosed;
      }
      if !established || send.None? {
        return NotReady;
      }
      var c := send.value;
      if c.n >= NONCE_LIMIT {
        return Exhausted;
      }
      send := Some(Cipher(c.key, c.n + 1));
      var landed := WriteWithGrace(Sealed(c.key, c.n, plain));
      if !landed {
        FinishWith(WriteFailed);
        return WriteFailed;
      }
      return Ok;
    }

    method InstallCiphers()
      modifies this
      ensures View() == Install(old(View()))
    {
      var initToResp, respToInit := Cipher(Key(transcript, true), 0), Cipher(Key(transcript, false), 0);
      if initiator {
        send, recv := Some(initToResp), Some(respToInit);
      } else {
        send, recv := Some(respToInit), Some(initToResp);
      }
      established, phase := true, Transport;
    }

    method BeginHandshake()
      modifies this, link
      ensures (View(), link.View()) == Begin(old(View()), old(link.View()))
    {
      var m1 := Hello(ephemeral);
      transcript := [m1];
      var landed := WriteWithGrace(m1);
      if landed {
        phase := AwaitReply;
      } else {
        FinishWith(WriteFailed);
        phase := Ended;
      }
    }

    method HandshakeFrame()
      modifies this, link
      ensures (View(), link.View()) == Handshake(old(View()), old(link.View()))
    {
      if !(phase.AwaitHello? || phase.AwaitReply? || phase.AwaitConfirm?) || inbound == [] {
        return;
      }
      var f := inbound[0];
      inbound := inbound[1..];
      if phase.AwaitHello? {
        var m2 := Reply([f], ephemeral, identity);
        transcript := [f, m2];
        var landed := WriteWithGrace(m2);
        if landed {
          phase := AwaitConfirm;
          return;
        }
        FinishWith(WriteFailed);
      } else if phase.AwaitReply? && f.Reply? && f.heard == transcript {
        var m3 := Confirm(transcript + [f], identity);
        transcript := transcript + [f, m3];
        var landed := WriteWithGrace(m3);
        if landed {
          InstallCiphers();
          return;
        }
        FinishWith(WriteFailed);
      } else if phase.AwaitConfirm? && f.Confirm? && f.heard == transcript {
        transcript := transcript + [f];
        InstallCiphers();
        return;
      } else {
        FinishWith(HandshakeFailed);
      }
      phase := Ended;
    }

    method DeliverFrame(f: Frame)
      requires HasRoom(View()) || closed
      modifies this`inbound
      ensures View() == Deliver(old(View()), f)
    {
      if |inbound| < INBOUND_CAPACITY {
        inbound := inbound + [f];
      }
    }

    method ReceiveFrame(parses: bool) returns (plain: Option<Plain>)
      modifies this
      ensures (View(), plain) == Receive(old(View()), parses)
    {
      plain := None;
      if phase != Transport {
        return;
      }
      if inbound == [] {
        if closed {
          phase := Ended;
        }
        return;
      }
      var f := inbound[0];
      inbound := inbound[1..];
      var err := DecryptFailed;
      if recv.Some? {
        var c := recv.value;
        if f.Sealed? && f.key == c.key && f.counter == c.n && c.n < NONCE_LIMIT {
          recv := Some(Cipher(c.key, c.n + 1));
          if parses {
            return Some(f.plain);
          }
          err := ParseFailed;
        }
      }
      FinishWith(err);
      phase := Ended;
    }
  }
}
