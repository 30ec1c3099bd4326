/** The packet cipher object of zone/crypto.go, proved against its value model. */
module ZonePackets {
  import opened Bytes
  import opened ZoneCipher

  class PeerCipher {
    const member: Member
    const mac: Mac
    const session: seq<byte>
    const send: Key
    const receive: Key
    var last: Uint64

    constructor (member: Member, mac: Mac, session: seq<byte>, send: Key, receive: Key)
      ensures View() == Peer(member, mac, session, send, receive, 0)
    {
      this.member := member;
      this.mac := mac;
      this.session := session;
      this.send := send;
      this.receive := receive;
      last := 0;
    }

    function View(): Peer
      reads this
    {
      Peer(member, mac, session, send, receive, last)
    }
  }

  ghost function Peers(objects: map<Addr, PeerCipher>): map<Addr, Peer>
    reads objects.Values
  {
    map a | a in objects :: objects[a].View()
  }

  /** The MAC index names peers by address. */
  ghost predicate Same(macs: map<Mac, PeerCipher>, index: map<Mac, Addr>, peers: map<Addr, PeerCipher>) {
    && macs.Keys == index.Keys
    && (forall m | m in macs :: index[m] in peers && peers[index[m]] == macs[m])
  }

  ghost predicate Placed(peers: map<Addr, PeerCipher>) {
    forall a | a in peers :: peers[a].member.ip == Some(a)
  }

  lemma PlacedApart(peers: map<Addr, PeerCipher>, a: Addr, b: Addr)
    requires Placed(peers) && a in peers && b in peers && a != b
    ensures peers[a] != peers[b]
  {
  }

  lemma InsertSame(macs: map<Mac, PeerCipher>, index: map<Mac, Addr>, peers: map<Addr, PeerCipher>, a: Addr, mac: Mac, p: PeerCipher)
    requires Same(macs, index, peers) && Placed(peers) && a !in peers && mac !in macs && p.member.ip == Some(a)
    ensures Same(macs[mac := p], index[mac := a], peers[a := p]) && Placed(peers[a := p])
  {
  }

  lemma InsertPeers(peers: map<Addr, PeerCipher>, a: Addr, p: PeerCipher)
    ensures Peers(peers[a := p]) == Peers(peers)[a := p.View()]
  {
  }

  class PacketCipher {
    const cfg: Config
    var next: Uint64
    var peers: map<Addr, PeerCipher>
    var macs: map<Mac, PeerCipher>
    ghost var index: map<Mac, Addr>

    ghost predicate Valid()
      reads this
    {
      Placed(peers) && Same(macs, index, peers)
    }

    ghost function View(): State
      reads this, peers.Values
    {
      State(next, Peers(peers), index)
    }

    constructor (cfg: Config)
      ensures Valid() && View() == State(0, map[], map[]) && this.cfg == cfg
    {
      this.cfg := cfg;
      next := 0;
      peers := map[];
      macs := map[];
      index := map[];
    }

    /** The object for a member: the old one when nothing about the member changed. */
    method EntryFor(m: Member, identity: seq<byte>, session: seq<byte>) returns (p: Option<PeerCipher>)
      requires Valid() && m.ip.Some? && DecodeExact(m.identity, 32) == Some(identity) && DecodeExact(m.session, 16) == Some(session)
      ensures p.Some? <==> PeerFor(cfg, Peers(peers), m).Some?
      ensures p.Some? ==> p.value.View() == PeerFor(cfg, Peers(peers), m).value && p.value.member.ip == m.ip
    {
      var a := m.ip.value;
      if a in peers && peers[a].member.identity == m.identity && peers[a].member.key == m.key
         && peers[a].member.session == m.session {
        return Some(peers[a]);
      }
      if !cfg.usable(m.key) {
        return None;
      }
      var fresh' := new PeerCipher(m, DeriveMac(cfg, identity), session,
        Key(cfg.zone, cfg.key, m.key), Key(cfg.zone, m.key, cfg.key));
      return Some(fresh');
    }

    /** The MAC of a roster entry that passes every check against those before it. */
    method CheckMember(m: Member, ps: map<Addr, PeerCipher>, ms: map<Mac, PeerCipher>, ids: set<string>, keys: set<string>,
                       ghost ix: map<Mac, Addr>)
      returns (mac: Option<Mac>)
      requires Same(ms, ix, ps)
      ensures mac.Some? <==> Admissible(cfg, Draft(Peers(ps), ix, ids, keys), m)
      ensures mac.Some? ==> mac.value == DeriveMac(cfg, DecodeExact(m.identity, 32).value)
    {
      if m.ip.None? || !HostAddress(cfg.prefix, m.ip.value) || m.ip.value == cfg.self
         || m.ip.value in ps || m.identity in ids || m.key in keys {
        return None;
      }
      var identity, key, session := DecodeExact(m.identity, 32), DecodeExact(m.key, 32), DecodeExact(m.session, 16);
      if identity.None? || key.None? || session.None? {
        return None;
      }
      var derived := DeriveMac(cfg, identity.value);
      return if derived in ms || derived == cfg.mac then None else Some(derived);
    }

    /** Check one roster entry and add it. */
    method AdmitMember(m: Member, ps: map<Addr, PeerCipher>, ms: map<Mac, PeerCipher>, ids: set<string>, keys: set<string>,
                       ghost ix: map<Mac, Addr>)
      returns (ok: bool, ps': map<Addr, PeerCipher>, ms': map<Mac, PeerCipher>, ghost ix': map<Mac, Addr>)
      requires Valid() && Placed(ps) && Same(ms, ix, ps)
      ensures Placed(ps') && Same(ms', ix', ps')
      ensures Admit(cfg, Peers(peers), Draft(Peers(ps), ix, ids, keys), m)
              == if ok then Some(Draft(Peers(ps'), ix', ids + {m.identity}, keys + {m.key})) else None
    {
      ok, ps', ms', ix' := false, ps, ms, ix;
      var mac := CheckMember(m, ps, ms, ids, keys, ix);
      if mac.None? {
        return;
      }
      var p := EntryFor(m, DecodeExact(m.identity, 32).value, DecodeExact(m.session, 16).value);
      if p.None? {
        return;
      }
      InsertSame(ms, ix, ps, m.ip.value, mac.value, p.value);
      InsertPeers(ps, m.ip.value, p.value);
      ok, ps', ms', ix' := true, ps[m.ip.value := p.value], ms[mac.value := p.value], ix[mac.value := m.ip.value];
    }

    /** Build a new roster aside. */
    method AdmitRoster(members: seq<Member>)
      returns (ok: bool, ps: map<Addr, PeerCipher>, ms: map<Mac, PeerCipher>, ghost d: Draft)
      requires Valid()
      ensures AdmitAll(cfg, Peers(peers), members) == if ok then Some(d) else None
      ensures ok ==> Placed(ps) && Same(ms, d.macs, ps) && Peers(ps) == d.peers
    {
      ok, ps, ms, d := true, map[], map[], EMPTY;
      var ids: set<string>, keys: set<string> := {}, {};
      var i := 0;
      while i < |members|
        invariant 0 <= i <= |members|
        invariant Placed(ps) && Same(ms, d.macs, ps) && Peers(ps) == d.peers && d.identities == ids && d.keys == keys
        invariant AdmitAll(cfg, Peers(peers), members[..i]) == Some(d)
      {
        var m := members[i];
        assert members[..i + 1][..i] == members[..i];
        ghost var ix;
        ok, ps, ms, ix := AdmitMember(m, ps, ms, ids, keys, d.macs);
        if !ok {
          AdmitAllStuck(cfg, Peers(peers), members, i + 1);
          return;
        }
        ids, keys := ids + {m.identity}, keys + {m.key};
        d := Draft(Peers(ps), ix, ids, keys);
        i := i + 1;
      }
      assert members[..i] == members;
      ok := true;
    }

    /** Install the roster only when all of it is good. */
    method Update(roster: Roster) returns (ok: bool)
      requires Valid()
      modifies this
      ensures Valid() && next == old(next)
      ensures ok <==> ZoneCipher.Update(cfg, old(View()), roster).Some?
      ensures View() == if ok then ZoneCipher.Update(cfg, old(View()), roster).value else old(View())
    {
      if !NetworkOk(roster.zone, cfg.zone, roster.self) || roster.self != Some(cfg.self) || roster.zone.cidr != Some(cfg.prefix)
         || roster.zone.mtu != cfg.mtu || |roster.members| > 255 {
        return false;
      }
      var ps, ms;
      ghost var d;
      ok, ps, ms, d := AdmitRoster(roster.members);
      if ok {
        peers, macs, index := ps, ms, d.macs;
      }
    }

    method SealLocked(peer: PeerCipher, prefix: seq<byte>, payload: seq<byte>) returns (p: Option<Packet>)
      requires Valid()
      modifies this`next
      ensures Valid()
      ensures var s := Seal(cfg, old(View()), peer.send, prefix, payload);
              if s.None? then p.None? && View() == old(View()) else p == Some(s.value.1) && View() == s.value.0
    {
      if next == MAX_SEQUENCE {
        return None;
      }
      next := next + 1;
      return Some(Stamp(cfg, peer.send, next, prefix, payload));
    }

    /** Seal for a peer that must still be the one the roster holds. */
    method SealFor(peer: PeerCipher, to: Addr, prefix: seq<byte>, payload: seq<byte>) returns (p: Option<Packet>)
      requires Valid()
      modifies this`next
      ensures Valid()
      ensures var s := SealTo(cfg, old(View()), to, to in peers && peers[to] == peer, prefix, payload);
              if s.None? then p.None? && View() == old(View()) else p == Some(s.value.1) && View() == s.value.0
    {
      if to !in peers || peers[to] != peer {
        return None;
      }
      p := SealLocked(peer, prefix, payload);
    }

    method OpenFrom(peer: PeerCipher, from: Addr, p: Packet, check: Check) returns (plain: Option<seq<byte>>)
      requires Valid() && |p.header| >= 8
      modifies peer`last
      ensures Valid()
      ensures (View(), plain) == Open(old(View()), from, from in peers && peers[from] == peer, p, check)
    {
      if from !in peers || peers[from] != peer {
        return None;
      }
      var n := SequenceOf(p);
      if n <= peer.last {
        return None;
      }
      if !Authentic(peer.View(), p) || !Passes(check, p.body.payload) {
        return None;
      }
      ghost var before := View().peers;
      peer.last := n;
      forall a | a in peers && a != from
        ensures peers[a].View() == before[a]
      {
        PlacedApart(peers, a, from);
      }
      assert Peers(peers) == before[from := before[from].(last := n)];
      return Some(p.body.payload);
    }

    /** The roster's addresses in some order. */
    method Targets() returns (order: seq<Addr>)
      requires Valid()
      ensures Lists(order, Peers(peers))
    {
      order := [];
      var rest := peers.Keys;
      while rest != {}
        invariant rest <= peers.Keys
        invariant forall a | a in peers :: a in rest || a in order
        invariant forall i | 0 <= i < |order| :: order[i] in peers && order[i] !in rest
        invariant forall i, j | 0 <= i < j < |order| :: order[i] != order[j]
        decreases |rest|
      {
        var a :| a in rest;
        order, rest := order + [a], rest - {a};
      }
    }

    /** One copy per target; when the counter runs out nothing is returned, but
        the numbers already used stay used. */
    method SealCopies(targets: seq<Addr>, prefix: seq<byte>, payload: seq<byte>) returns (messages: Option<seq<Packet>>)
      requires Valid() && forall i | 0 <= i < |targets| :: targets[i] in peers
      modifies this`next
      ensures Valid()
      ensures var f := SealEach(cfg, old(View()), targets, prefix, payload);
              View() == f.state && messages == if f.ok then Some(f.sealed) else None
    {
      var sealed: seq<Packet> := [];
      var i := 0;
      while i < |targets|
        invariant 0 <= i <= |targets| && Valid()
        invariant SealEach(cfg, old(View()), targets[..i], prefix, payload) == Flooded(View(), sealed, true)
      {
        assert targets[..i + 1][..i] == targets[..i];
        var p := SealLocked(peers[targets[i]], prefix, payload);
        if p.None? {
          SealEachStuck(cfg, old(View()), targets, i + 1, prefix, payload);
          return None;
        }
        sealed, i := sealed + [p.value], i + 1;
      }
      assert targets[..i] == targets;
      return Some(sealed);
    }

    method SealFrame(frame: seq<byte>) returns (messages: Option<seq<Packet>>, ghost order: seq<Addr>)
      requires Valid()
      modifies this`next
      ensures Valid() && Lists(order, old(View()).peers) && Indexed(old(View()))
      ensures var f := ZoneCipher.SealFrame(cfg, old(View()), frame, order);
              View() == f.state && messages == if f.ok then Some(f.sealed) else None
    {
      var targets := Targets();
      order := targets;
      if !FrameLength(frame) || frame[6..12] != cfg.mac || frame[0..6] == cfg.mac {
        return None, order;
      }
      var dst: Mac := frame[0..6];
      if !Group(dst) {
        if dst !in macs {
          return None, order;
        }
        targets := [macs[dst].member.ip.value];
      }
      messages := SealCopies(targets, FramePrefix(cfg.mac, dst), frame);
    }

    method OpenFrame(p: Packet) returns (frame: Option<seq<byte>>)
      requires Valid()
      modifies (set a | a in peers :: peers[a])`last
      ensures Valid()
      ensures (View(), frame) == ZoneCipher.OpenFrame(cfg, old(View()), p, true)
    {
      if |p.header| != 22 || p.header[0..2] != [1, 2] || !FrameLength(p.body.payload) {
        return None;
      }
      var src: Mac, dst: Mac := p.header[2..8], p.header[8..14];
      if src !in macs || (dst != cfg.mac && !Group(dst)) {
        return None;
      }
      var peer := macs[src];
      frame := OpenFrom(peer, peer.member.ip.value, p, FrameCheck(src, dst));
    }

    method SealStreamData(peer: PeerCipher, id: Uint32, payload: seq<byte>) returns (p: Option<Packet>)
      requires Valid() && peer.member.ip.Some?
      modifies this`next
      ensures Valid()
      ensures var to := peer.member.ip.value;
              var s := ZoneCipher.SealStreamData(cfg, old(View()), to, to in peers && peers[to] == peer, id, payload);
              if s.None? then p.None? && View() == old(View()) else p == Some(s.value.1) && View() == s.value.0
    {
      if !StreamLength(payload) {
        return None;
      }
      p := SealFor(peer, peer.member.ip.value, StreamPrefix(id), payload);
    }

    method OpenStreamData(peer: PeerCipher, p: Packet) returns (data: Option<(Uint32, seq<byte>)>)
      requires Valid() && peer.member.ip.Some?
      modifies peer`last
      ensures Valid()
      ensures var from := peer.member.ip.value;
              (View(), data) == ZoneCipher.OpenStreamData(old(View()), from, from in peers && peers[from] == peer, p)
    {
      if |p.header| != 14 || p.header[0..2] != [2, 4] || |p.body.payload| > 16384 {
        return None;
      }
      var plain := OpenFrom(peer, peer.member.ip.value, p, StreamCheck);
      Pow256Values();
      return if plain.None? then None else Some((FromBE(p.header[2..6]), plain.value));
    }

    method SealDatagram(d: Datagram) returns (p: Option<Packet>)
      requires Valid()
      modifies this`next
      ensures Valid()
      ensures var s := ZoneCipher.SealDatagram(cfg, old(View()), d, true);
              if s.None? then p.None? && View() == old(View()) else p == Some(s.value.1) && View() == s.value.0
    {
      if d.dst !in peers {
        return None;
      }
      p := SealFor(peers[d.dst], d.dst, DatagramPrefix(cfg.self, d.dst, d.srcPort, d.dstPort), d.payload);
    }

    method OpenDatagram(p: Packet) returns (d: Option<Datagram>)
      requires Valid()
      modifies (set a | a in peers :: peers[a])`last
      ensures Valid()
      ensures (View(), d) == ZoneCipher.OpenDatagram(cfg, old(View()), p, true)
    {
      if |p.header| != 21 || p.header[0] != 3 {
        return None;
      }
      Pow256Values();
      var src: Addr, dst: Addr := FromBE(p.header[1..5]), FromBE(p.header[5..9]);
      if src !in peers || dst != cfg.self {
        return None;
      }
      var plain := OpenFrom(peers[src], src, p, Anything);
      return if plain.None? then None
        else Some(Datagram(src, dst, U16(p.header[9], p.header[10]), U16(p.header[11], p.header[12]), plain.value));
    }
  }

  lemma {:induction false} SealEachStuck(cfg: Config, st: State, targets: seq<Addr>, i: nat, prefix: seq<byte>, payload: seq<byte>)
    requires i <= |targets| && (forall i | 0 <= i < |targets| :: targets[i] in st.peers)
    requires !SealEach(cfg, st, targets[..i], prefix, payload).ok
    ensures SealEach(cfg, st, targets, prefix, payload) == SealEach(cfg, st, targets[..i], prefix, payload)
    decreases |targets|
  {
    if i < |targets| {
      assert targets[..|targets| - 1][..i] == targets[..i];
      SealEachStuck(cfg, st, targets[..|targets| - 1], i, prefix, payload);
    } else {
      assert targets[..i] == targets;
    }
  }

  lemma {:induction false} AdmitAllStuck(cfg: Config, kept: map<Addr, Peer>, ms: seq<Member>, i: nat)
    requires i <= |ms| && AdmitAll(cfg, kept, ms[..i]).None?
    ensures AdmitAll(cfg, kept, ms).None?
    decreases |ms|
  {
    if i < |ms| {
      assert ms[..|ms| - 1][..i] == ms[..i];
      AdmitAllStuck(cfg, kept, ms[..|ms| - 1], i);
    } else {
      assert ms[..i] == ms;
    }
  }
}
