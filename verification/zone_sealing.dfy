/** Exactly which payloads a zone packet cipher seals, and exactly which
    messages it opens: those a member of its roster could have sealed for it. */
module ZoneSealing {
  import opened Bytes
  import opened ZoneCipher
  import opened ZoneRoster
  import opened ZoneRuns

  // ---------------------------------------------------------------- sealing

  lemma {:induction false} ListsAll(order: seq<Addr>, peers: map<Addr, Peer>)
    requires Lists(order, peers)
    ensures |order| == |peers|
    decreases |order|
  {
    if order == [] {
      assert peers.Keys == {};
    } else {
      var front, last := order[..|order| - 1], order[|order| - 1];
      var rest := peers - {last};
      assert rest.Keys == peers.Keys - {last};
      forall a | a in rest
        ensures a in front
      {
        var i :| 0 <= i < |order| && order[i] == a;
        assert front[i] == a;
      }
      ListsAll(front, rest);
    }
  }

  ghost predicate MemberMac(st: State, mac: Mac) { exists a :: a in st.peers && st.peers[a].mac == mac }

  /** A frame is sealed if and only if it has a proper length, comes from this
      member, is not meant for it, and goes to a group or to a member, with a
      number left for every copy. A group gets one copy per member. */
  lemma FrameSealedIff(cfg: Config, st: State, frame: seq<byte>, order: seq<Addr>)
    requires IndexOk(st.peers, st.macs) && Lists(order, st.peers) && Indexed(st)
    ensures SealFrame(cfg, st, frame, order).ok <==>
              && 14 <= |frame| <= 1514 && frame[6..12] == cfg.mac && frame[0..6] != cfg.mac
              && if frame[0] % 2 == 1 then st.next + |st.peers| < 0x1_0000_0000_0000_0000
                 else MemberMac(st, frame[0..6]) && st.next + 1 < 0x1_0000_0000_0000_0000
    ensures SealFrame(cfg, st, frame, order).ok ==>
              |SealFrame(cfg, st, frame, order).sealed| == if frame[0] % 2 == 1 then |st.peers| else 1
  {
    ListsAll(order, st.peers);
    var targets := FrameTargets(cfg, st, frame, order);
    if |frame| >= 14 {
      assert Group(frame[0..6]) <==> frame[0] % 2 == 1;
      MacIndexed(st, frame[0..6]);
    }
    if targets.Some? {
      SealEachCopies(cfg, st, targets.value, FramePrefix(cfg.mac, frame[0..6]), frame);
    }
  }

  lemma MacIndexed(st: State, mac: Mac)
    requires IndexOk(st.peers, st.macs)
    ensures MemberMac(st, mac) <==> mac in st.macs
  {
    if mac in st.macs {
      assert st.peers[st.macs[mac]].mac == mac;
    }
  }

  /** Stream data is sealed if and only if its size is in range, the peer is the
      current one and a number is left. */
  lemma StreamSealedIff(cfg: Config, st: State, to: Addr, current: bool, id: Uint32, payload: seq<byte>)
    ensures SealStreamData(cfg, st, to, current, id, payload).Some? <==>
              1 <= |payload| <= 16384 && to in st.peers && current && st.next + 1 < 0x1_0000_0000_0000_0000
  {
  }

  lemma DatagramSealedIff(cfg: Config, st: State, d: Datagram, current: bool)
    ensures SealDatagram(cfg, st, d, current).Some? <==>
              d.dst in st.peers && current && st.next + 1 < 0x1_0000_0000_0000_0000
  {
  }

  // ---------------------------------------------------------------- opening

  /** The message numbered n that this peer seals for us. */
  function FromPeer(peer: Peer, n: nat, prefix: seq<byte>, payload: seq<byte>): Packet {
    var header := prefix + BE(n, 8);
    Packet(header, Sealed(peer.receive, peer.session, BE(n, 8), header, payload))
  }

  /** p is a message of the peer at a, newer than all accepted from it. */
  ghost predicate NewFrom(st: State, a: Addr, n: Uint64, p: Packet, prefix: seq<byte>, payload: seq<byte>) {
    a in st.peers && st.peers[a].last < n && p == FromPeer(st.peers[a], n, prefix, payload)
  }

  lemma HeaderSplits(h: seq<byte>)
    requires |h| >= 8
    ensures h[..|h| - 8] + BE(FromBE(h[|h| - 8..]), 8) == h
  {
    FromBERoundTrip(h[|h| - 8..]);
  }

  lemma NumberBack(prefix: seq<byte>, n: Uint64)
    ensures var h := prefix + BE(n, 8); h[|h| - 8..] == BE(n, 8) && FromBE(h[|h| - 8..]) == n
  {
    Pow256Values();
    BERoundTrip(n, 8);
  }

  lemma OpenIff(st: State, a: Addr, p: Packet, prefix: seq<byte>, check: Check, payload: seq<byte>)
    requires |p.header| == |prefix| + 8 && p.header[..|prefix|] == prefix
    ensures Open(st, a, true, p, check).1 == Some(payload) <==>
              Passes(check, payload) && NewFrom(st, a, SequenceOf(p), p, prefix, payload)
  {
    HeaderSplits(p.header);
  }

  /** A message that is one of a peer's has that peer's number and prefix. */
  lemma NewFromFields(st: State, a: Addr, n: Uint64, p: Packet, prefix: seq<byte>, payload: seq<byte>)
    requires NewFrom(st, a, n, p, prefix, payload)
    ensures |p.header| == |prefix| + 8 && p.header[..|prefix|] == prefix && SequenceOf(p) == n && p.body.payload == payload
  {
    NumberBack(prefix, n);
  }

  /** A frame of the member at a, for this member or for a group it is in. */
  ghost predicate FrameFrom(cfg: Config, st: State, a: Addr, n: Uint64, p: Packet, frame: seq<byte>) {
    && a in st.peers && 14 <= |frame| <= 1514 && frame[6..12] == st.peers[a].mac
    && (frame[0..6] == cfg.mac || frame[0] % 2 == 1)
    && NewFrom(st, a, n, p, [1, 2] + st.peers[a].mac + frame[0..6], frame)
  }

  lemma FrameHeader(h: seq<byte>, src: Mac, dst: Mac)
    ensures |h| == 22 && h[..14] == [1, 2] + src + dst <==> |h| == 22 && h[0..2] == [1, 2] && h[2..8] == src && h[8..14] == dst
  {
    if |h| == 22 {
      assert h[..14] == h[0..2] + h[2..8] + h[8..14];
    }
  }

  lemma FrameOpensTo(cfg: Config, st: State, a: Addr, n: Uint64, p: Packet, frame: seq<byte>)
    requires IndexOk(st.peers, st.macs) && FrameFrom(cfg, st, a, n, p, frame)
    ensures OpenFrame(cfg, st, p, true).1 == Some(frame)
  {
    var src, dst := st.peers[a].mac, frame[0..6];
    var prefix := [1, 2] + src + dst;
    NewFromFields(st, a, n, p, prefix, frame);
    FrameHeader(p.header, src, dst);
    assert src in st.macs && st.macs[src] == a;
    FrameOpened(cfg, st, p, src, dst);
    OpenIff(st, a, p, prefix, FrameCheck(src, dst), frame);
  }

  lemma OpenedFrameFrom(cfg: Config, st: State, p: Packet, frame: seq<byte>) returns (a: Addr, n: Uint64)
    requires IndexOk(st.peers, st.macs) && OpenFrame(cfg, st, p, true).1 == Some(frame)
    ensures FrameFrom(cfg, st, a, n, p, frame)
  {
    var src, dst := p.header[2..8], p.header[8..14];
    a, n := st.macs[src], SequenceOf(p);
    FrameHeader(p.header, src, dst);
    OpenIff(st, a, p, [1, 2] + src + dst, FrameCheck(src, dst), frame);
    assert st.peers[a].mac == src;
  }

  /** A message opens to a frame if and only if some member sealed that frame,
      under a number newer than all accepted from it, for this member or for a
      group, with its own address as the source. */
  lemma FrameOpensIff(cfg: Config, st: State, p: Packet, frame: seq<byte>)
    requires IndexOk(st.peers, st.macs)
    ensures OpenFrame(cfg, st, p, true).1 == Some(frame) <==> exists a: Addr, n: Uint64 :: FrameFrom(cfg, st, a, n, p, frame)
  {
    if OpenFrame(cfg, st, p, true).1 == Some(frame) {
      var a, n := OpenedFrameFrom(cfg, st, p, frame);
    } else if a: Addr, n: Uint64 :| FrameFrom(cfg, st, a, n, p, frame) {
      FrameOpensTo(cfg, st, a, n, p, frame);
    }
  }

  lemma StreamHeader(h: seq<byte>, id: Uint32)
    ensures |h| == 14 && h[..6] == [2, 4] + BE(id, 4) <==> |h| == 14 && h[0..2] == [2, 4] && FromBE(h[2..6]) == id
  {
    if |h| == 14 {
      assert h[..6] == h[0..2] + h[2..6];
      Pow256Values();
      BERoundTrip(id, 4);
      FromBERoundTrip(h[2..6]);
    }
  }

  ghost predicate StreamFrom(st: State, from: Addr, n: Uint64, p: Packet, id: Uint32, payload: seq<byte>) {
    1 <= |payload| <= 16384 && NewFrom(st, from, n, p, [2, 4] + BE(id, 4), payload)
  }

  /** A message opens to stream data if and only if that peer sealed it, newer
      than all accepted from it. */
  lemma StreamOpensIff(st: State, from: Addr, p: Packet, id: Uint32, payload: seq<byte>)
    ensures OpenStreamData(st, from, true, p).1 == Some((id, payload)) <==> exists n: Uint64 :: StreamFrom(st, from, n, p, id, payload)
  {
    var prefix := [2, 4] + BE(id, 4);
    StreamHeader(p.header, id);
    if OpenStreamData(st, from, true, p).1 == Some((id, payload)) {
      OpenIff(st, from, p, prefix, StreamCheck, payload);
      assert StreamFrom(st, from, SequenceOf(p), p, id, payload);
    } else if n: Uint64 :| StreamFrom(st, from, n, p, id, payload) {
      NewFromFields(st, from, n, p, prefix, payload);
      OpenIff(st, from, p, prefix, StreamCheck, payload);
    }
  }

  lemma DatagramHeader(h: seq<byte>, d: Datagram)
    ensures |h| == 21 && h[..13] == DatagramPrefix(d.src, d.dst, d.srcPort, d.dstPort) <==>
              && |h| == 21 && h[0] == 3 && FromBE(h[1..5]) == d.src && FromBE(h[5..9]) == d.dst
              && U16(h[9], h[10]) == d.srcPort && U16(h[11], h[12]) == d.dstPort
  {
    if |h| == 21 {
      assert h[..13] == [h[0]] + h[1..5] + h[5..9] + [h[9], h[10]] + [h[11], h[12]];
      AddressBytes(h[1..5], d.src);
      AddressBytes(h[5..9], d.dst);
      BE16Iff(h[9], h[10], d.srcPort);
      BE16Iff(h[11], h[12], d.dstPort);
      SameParts([h[0]], h[1..5], h[5..9], [h[9], h[10]], [h[11], h[12]], [3], BE(d.src, 4), BE(d.dst, 4), BE16(d.srcPort), BE16(d.dstPort));
    }
  }

  lemma AddressBytes(b: seq<byte>, a: Addr)
    requires |b| == 4
    ensures b == BE(a, 4) <==> FromBE(b) == a
  {
    Pow256Values();
    BERoundTrip(a, 4);
    FromBERoundTrip(b);
  }

  lemma SameParts(a: seq<byte>, b: seq<byte>, c: seq<byte>, d: seq<byte>, e: seq<byte>,
                  a': seq<byte>, b': seq<byte>, c': seq<byte>, d': seq<byte>, e': seq<byte>)
    requires |a| == |a'| && |b| == |b'| && |c| == |c'| && |d| == |d'| && |e| == |e'|
    ensures a + b + c + d + e == a' + b' + c' + d' + e' <==> a == a' && b == b' && c == c' && d == d' && e == e'
  {
    var x, y := a + b + c + d + e, a' + b' + c' + d' + e';
    if x == y {
      var i, j, k, l := |a|, |a| + |b|, |a| + |b| + |c|, |a| + |b| + |c| + |d|;
      assert x[..i] == a && x[i..j] == b && x[j..k] == c && x[k..l] == d && x[l..] == e;
      assert y[..i] == a' && y[i..j] == b' && y[j..k] == c' && y[k..l] == d' && y[l..] == e';
    }
  }

  ghost predicate DatagramFrom(cfg: Config, st: State, n: Uint64, p: Packet, d: Datagram) {
    d.dst == cfg.self && NewFrom(st, d.src, n, p, [3] + BE(d.src, 4) + BE(d.dst, 4) + BE16(d.srcPort) + BE16(d.dstPort), d.payload)
  }

  /** A message opens to a datagram if and only if the member at its source
      address sealed it for this one, newer than all accepted from it. */
  lemma DatagramOpensIff(cfg: Config, st: State, p: Packet, d: Datagram)
    ensures OpenDatagram(cfg, st, p, true).1 == Some(d) <==> exists n: Uint64 :: DatagramFrom(cfg, st, n, p, d)
  {
    var prefix := DatagramPrefix(d.src, d.dst, d.srcPort, d.dstPort);
    DatagramHeader(p.header, d);
    if OpenDatagram(cfg, st, p, true).1 == Some(d) {
      OpenIff(st, d.src, p, prefix, Anything, d.payload);
      assert DatagramFrom(cfg, st, SequenceOf(p), p, d);
    } else if n: Uint64 :| DatagramFrom(cfg, st, n, p, d) {
      NewFromFields(st, d.src, n, p, prefix, d.payload);
      OpenIff(st, d.src, p, prefix, Anything, d.payload);
    }
  }

  /** A message that comes in for a peer the roster has replaced is refused and
      leaves no trace. */
  lemma StaleRefused(cfg: Config, st: State, from: Addr, p: Packet)
    ensures OpenFrame(cfg, st, p, false) == (st, None)
    ensures OpenStreamData(st, from, false, p) == (st, None)
    ensures OpenDatagram(cfg, st, p, false) == (st, None)
  {
  }
}
