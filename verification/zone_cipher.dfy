/** The zone packet cipher of zone/crypto.go and the roster checks of
    zone/protocol.go, on values.

    The AEAD is ideal: a sealed body opens only under its own key, nonce and
    additional data. A packet key stands for the pair of exchange keys it was
    derived from, in order. The hash behind MAC addresses and the test for a
    usable exchange key are parameters. */
module ZoneCipher {
  import opened Bytes

  type Addr = x: nat | x < 0x1_0000_0000
  type Uint64 = x: nat | x < 0x1_0000_0000_0000_0000
  type Mac = s: seq<byte> | |s| == 6 witness [0, 0, 0, 0, 0, 0]

  const MAX_SEQUENCE: Uint64 := 0xFFFF_FFFF_FFFF_FFFF

  // ------------------------------------------------------------ the network

  datatype Prefix = Prefix(base: Addr, bits: nat)

  function Size(p: Prefix): nat { if p.bits <= 32 then Pow2(32 - p.bits) else 1 }

  function Broadcast(p: Prefix): nat { p.base + Size(p) - 1 }

  predicate Contains(p: Prefix, a: Addr) { p.base <= a <= Broadcast(p) }

  predicate Private(a: Addr) {
    || 0x0A00_0000 <= a <= 0x0AFF_FFFF
    || 0xAC10_0000 <= a <= 0xAC1F_FFFF
    || 0xC0A8_0000 <= a <= 0xC0A8_FFFF
  }

  /** An address a member may hold. */
  predicate HostAddress(p: Prefix, a: Addr) { Contains(p, a) && a != p.base && a != Broadcast(p) }

  datatype ZoneInfo = ZoneInfo(id: string, cidr: Option<Prefix>, mtu: int)

  /** The checks of validateNetwork; an unparsable address is None. */
  predicate NetworkOk(z: ZoneInfo, id: string, self: Option<Addr>) {
    && z.cidr.Some? && 16 <= z.cidr.value.bits <= 30
    && z.cidr.value.base % Size(z.cidr.value) == 0 && Private(z.cidr.value.base)
    && z.id == id && 576 <= z.mtu <= 1500
    && self.Some? && HostAddress(z.cidr.value, self.value)
  }

  // -------------------------------------------------------------- the roster

  datatype Member = Member(identity: string, key: string, session: string, ip: Option<Addr>)

  datatype Roster = Roster(zone: ZoneInfo, self: Option<Addr>, members: seq<Member>)

  datatype Key = Key(zone: string, sender: string, receiver: string)

  /** One peer's cipher state. Only `last` ever changes. */
  datatype Peer = Peer(member: Member, mac: Mac, session: seq<byte>, send: Key, receive: Key, last: Uint64)

  datatype Config = Config(
    zone: string, self: Addr, prefix: Prefix, mtu: int, key: string, mac: Mac, session: seq<byte>,
    digest: (string, seq<byte>) -> Mac, usable: string -> bool)

  datatype State = State(next: Uint64, peers: map<Addr, Peer>, macs: map<Mac, Addr>)

  predicate LowerHex(s: string) { forall i | 0 <= i < |s| :: !('A' <= s[i] <= 'Z') }

  /** Lower-case hexadecimal text of exactly `size` bytes. */
  function DecodeExact(s: string, size: nat): (r: Option<seq<byte>>)
    ensures r.Some? ==> |r.value| == size
  {
    var d := DecodeHex(s);
    if d.Some? && |d.value| == size && LowerHex(s) then d else None
  }

  /** A derived address is unicast and locally administered, and otherwise the
      digest. */
  function DeriveMac(cfg: Config, identity: seq<byte>): (mac: Mac)
    ensures !Group(mac) && mac[0] / 2 % 2 == 1
    ensures mac[0] / 4 == cfg.digest(cfg.zone, identity)[0] / 4 && mac[1..] == cfg.digest(cfg.zone, identity)[1..]
  {
    var d := cfg.digest(cfg.zone, identity);
    [4 * (d[0] / 4) + 2] + d[1..]
  }

  predicate Group(mac: Mac) { mac[0] % 2 == 1 }

  predicate SameMember(p: Peer, m: Member) {
    p.member.identity == m.identity && p.member.key == m.key && p.member.session == m.session
  }

  /** What one roster pass has collected so far. */
  datatype Draft = Draft(peers: map<Addr, Peer>, macs: map<Mac, Addr>, identities: set<string>, keys: set<string>)

  const EMPTY: Draft := Draft(map[], map[], {}, {})

  predicate Admissible(cfg: Config, d: Draft, m: Member) {
    && m.ip.Some? && HostAddress(cfg.prefix, m.ip.value) && m.ip.value != cfg.self
    && m.ip.value !in d.peers && m.identity !in d.identities && m.key !in d.keys
    && DecodeExact(m.identity, 32).Some? && DecodeExact(m.key, 32).Some? && DecodeExact(m.session, 16).Some?
    && var mac := DeriveMac(cfg, DecodeExact(m.identity, 32).value); mac !in d.macs && mac != cfg.mac
  }

  /** The state of a member: kept as it is when nothing about it changed. */
  function PeerFor(cfg: Config, kept: map<Addr, Peer>, m: Member): Option<Peer>
    requires m.ip.Some? && DecodeExact(m.identity, 32).Some? && DecodeExact(m.session, 16).Some?
  {
    if m.ip.value in kept && SameMember(kept[m.ip.value], m) then Some(kept[m.ip.value])
    else if !cfg.usable(m.key) then None
    else Some(Peer(m, DeriveMac(cfg, DecodeExact(m.identity, 32).value), DecodeExact(m.session, 16).value,
                   Key(cfg.zone, cfg.key, m.key), Key(cfg.zone, m.key, cfg.key), 0))
  }

  function Admit(cfg: Config, kept: map<Addr, Peer>, d: Draft, m: Member): Option<Draft> {
    if !Admissible(cfg, d, m) then None
    else
      var p := PeerFor(cfg, kept, m);
      if p.None? then None
      else
        var mac := DeriveMac(cfg, DecodeExact(m.identity, 32).value);
        Some(Draft(d.peers[m.ip.value := p.value], d.macs[mac := m.ip.value],
                   d.identities + {m.identity}, d.keys + {m.key}))
  }

  function AdmitAll(cfg: Config, kept: map<Addr, Peer>, ms: seq<Member>): Option<Draft> {
    if ms == [] then Some(EMPTY)
    else
      var d := AdmitAll(cfg, kept, ms[..|ms| - 1]);
      if d.None? then None else Admit(cfg, kept, d.value, ms[|ms| - 1])
  }

  /** Replace the roster, or refuse it and change nothing. */
  function Update(cfg: Config, st: State, r: Roster): Option<State> {
    if !NetworkOk(r.zone, cfg.zone, r.self) || r.self != Some(cfg.self) || r.zone.cidr != Some(cfg.prefix)
       || r.zone.mtu != cfg.mtu || |r.members| > 255 then None
    else
      var d := AdmitAll(cfg, st.peers, r.members);
      if d.None? then None else Some(State(st.next, d.value.peers, d.value.macs))
  }

  // ------------------------------------------------------ sealing and opening

  datatype Sealed = Sealed(key: Key, session: seq<byte>, counter: seq<byte>, header: seq<byte>, payload: seq<byte>)

  /** A message on the wire: its plaintext header, which ends in the sequence
      number, and its sealed body. */
  datatype Packet = Packet(header: seq<byte>, body: Sealed)

  /** The message numbered n; `prefix` is its header up to the number. */
  function Stamp(cfg: Config, key: Key, n: nat, prefix: seq<byte>, payload: seq<byte>): Packet {
    var header := prefix + BE(n, 8);
    Packet(header, Sealed(key, cfg.session, BE(n, 8), header, payload))
  }

  function Seal(cfg: Config, st: State, key: Key, prefix: seq<byte>, payload: seq<byte>): Option<(State, Packet)> {
    if st.next == MAX_SEQUENCE then None
    else Some((st.(next := st.next + 1), Stamp(cfg, key, st.next + 1, prefix, payload)))
  }

  function SequenceOf(p: Packet): Uint64
    requires |p.header| >= 8
  {
    Pow256Values();
    FromBE(p.header[|p.header| - 8..])
  }

  /** What the caller of Open demands of the plaintext. */
  datatype Check = Anything | FrameCheck(src: seq<byte>, dst: seq<byte>) | StreamCheck

  predicate FrameLength(frame: seq<byte>) { 14 <= |frame| <= 1514 }

  predicate StreamLength(payload: seq<byte>) { 1 <= |payload| <= 16384 }

  predicate Passes(c: Check, payload: seq<byte>) {
    match c
    case Anything => true
    case FrameCheck(src, dst) => FrameLength(payload) && payload[0..6] == dst && payload[6..12] == src
    case StreamCheck => StreamLength(payload)
  }

  /** The ideal AEAD opens exactly what was sealed under this key, nonce and header. */
  predicate Authentic(peer: Peer, p: Packet)
    requires |p.header| >= 8
  {
    && p.body.key == peer.receive && p.body.session == peer.session
    && p.body.counter == p.header[|p.header| - 8..] && p.body.header == p.header
  }

  /** Open one message from the peer at `addr`; `current` says whether the
      caller's peer is still the one the roster holds there. */
  function Open(st: State, addr: Addr, current: bool, p: Packet, check: Check): (State, Option<seq<byte>>) {
    if addr !in st.peers || !current || |p.header| < 8 then (st, None)
    else
      var peer, n := st.peers[addr], SequenceOf(p);
      if n <= peer.last || !Authentic(peer, p) || !Passes(check, p.body.payload) then (st, None)
      else (st.(peers := st.peers[addr := peer.(last := n)]), Some(p.body.payload))
  }

  // ------------------------------------------------------------------ frames

  function FramePrefix(src: Mac, dst: Mac): seq<byte> { [1, 2] + src + dst }

  /** All copies sealed, and whether every target got one. */
  datatype Flooded = Flooded(state: State, sealed: seq<Packet>, ok: bool)

  /** One copy for every target, in order, until the counter is exhausted. */
  function SealEach(cfg: Config, st: State, targets: seq<Addr>, prefix: seq<byte>, payload: seq<byte>): (f: Flooded)
    requires forall i | 0 <= i < |targets| :: targets[i] in st.peers
    ensures f.state.peers == st.peers && f.state.macs == st.macs
  {
    if targets == [] then Flooded(st, [], true)
    else
      var f := SealEach(cfg, st, targets[..|targets| - 1], prefix, payload);
      if !f.ok then f
      else
        var s := Seal(cfg, f.state, st.peers[targets[|targets| - 1]].send, prefix, payload);
        if s.None? then f.(ok := false) else Flooded(s.value.0, f.sealed + [s.value.1], true)
  }

  /** The members a frame goes to; `order` is the order the roster is walked in. */
  function FrameTargets(cfg: Config, st: State, frame: seq<byte>, order: seq<Addr>): Option<seq<Addr>> {
    if !FrameLength(frame) || frame[6..12] != cfg.mac || frame[0..6] == cfg.mac then None
    else if Group(frame[0..6]) then Some(order)
    else if frame[0..6] in st.macs then Some([st.macs[frame[0..6]]])
    else None
  }

  predicate Lists(order: seq<Addr>, peers: map<Addr, Peer>) {
    && (forall i | 0 <= i < |order| :: order[i] in peers)
    && (forall a | a in peers :: a in order)
    && (forall i, j | 0 <= i < j < |order| :: order[i] != order[j])
  }

  predicate Indexed(st: State) { forall m | m in st.macs :: st.macs[m] in st.peers }

  function SealFrame(cfg: Config, st: State, frame: seq<byte>, order: seq<Addr>): Flooded
    requires Lists(order, st.peers) && Indexed(st)
  {
    var targets := FrameTargets(cfg, st, frame, order);
    if targets.None? then Flooded(st, [], false)
    else SealEach(cfg, st, targets.value, FramePrefix(cfg.mac, frame[0..6]), frame)
  }

  /** The peer a frame claims to come from, when this member should open it. */
  function FrameSource(cfg: Config, st: State, p: Packet): Option<Addr> {
    if |p.header| != 22 || p.header[0..2] != [1, 2] || !FrameLength(p.body.payload) then None
    else if p.header[2..8] !in st.macs || (p.header[8..14] != cfg.mac && !Group(p.header[8..14])) then None
    else Some(st.macs[p.header[2..8]])
  }

  function OpenFrame(cfg: Config, st: State, p: Packet, current: bool): (State, Option<seq<byte>>) {
    var src := FrameSource(cfg, st, p);
    if src.None? then (st, None)
    else Open(st, src.value, current, p, FrameCheck(p.header[2..8], p.header[8..14]))
  }

  // ------------------------------------------------------------- stream data

  type Uint32 = x: nat | x < 0x1_0000_0000
  type Port = x: nat | x < 0x1_0000

  function StreamPrefix(id: Uint32): seq<byte> { [2, 4] + BE(id, 4) }

  function SealTo(cfg: Config, st: State, to: Addr, current: bool, prefix: seq<byte>, payload: seq<byte>): Option<(State, Packet)> {
    if to !in st.peers || !current then None else Seal(cfg, st, st.peers[to].send, prefix, payload)
  }

  function SealStreamData(cfg: Config, st: State, to: Addr, current: bool, id: Uint32, payload: seq<byte>): Option<(State, Packet)> {
    if !StreamLength(payload) then None else SealTo(cfg, st, to, current, StreamPrefix(id), payload)
  }

  function OpenStreamData(st: State, from: Addr, current: bool, p: Packet): (State, Option<(Uint32, seq<byte>)>) {
    if |p.header| != 14 || p.header[0..2] != [2, 4] || |p.body.payload| > 16384 then (st, None)
    else
      var o := Open(st, from, current, p, StreamCheck);
      Pow256Values();
      (o.0, if o.1.None? then None else Some((FromBE(p.header[2..6]), o.1.value)))
  }

  // --------------------------------------------------------------- datagrams

  datatype Datagram = Datagram(src: Addr, dst: Addr, srcPort: Port, dstPort: Port, payload: seq<byte>)

  function DatagramPrefix(src: Addr, dst: Addr, srcPort: Port, dstPort: Port): seq<byte> {
    [3] + BE(src, 4) + BE(dst, 4) + BE16(srcPort) + BE16(dstPort)
  }

  function SealDatagram(cfg: Config, st: State, d: Datagram, current: bool): Option<(State, Packet)> {
    SealTo(cfg, st, d.dst, current, DatagramPrefix(cfg.self, d.dst, d.srcPort, d.dstPort), d.payload)
  }

  function OpenDatagram(cfg: Config, st: State, p: Packet, current: bool): (State, Option<Datagram>) {
    if |p.header| != 21 || p.header[0] != 3 then (st, None)
    else
      Pow256Values();
      var src: Addr, dst: Addr := FromBE(p.header[1..5]), FromBE(p.header[5..9]);
      if src !in st.peers || dst != cfg.self then (st, None)
      else
        var o := Open(st, src, current, p, Anything);
        (o.0, if o.1.None? then None
              else Some(Datagram(src, dst, U16(p.header[9], p.header[10]), U16(p.header[11], p.header[12]), o.1.value)))
  }
}
