/** What a roster update of the zone packet cipher installs and keeps. */
module ZoneRoster {
  import opened Bytes
  import opened ZoneCipher

  // ------------------------------------------------------- hexadecimal names

  lemma DigitBack(c: char)
    requires HexValue(c).Some? && !('A' <= c <= 'Z')
    ensures HexDigit(HexValue(c).value) == c
  {
  }

  lemma {:induction false} LowerHexCanonical(s: string)
    requires DecodeHex(s).Some? && LowerHex(s)
    ensures EncodeHex(DecodeHex(s).value) == s
  {
    if s != "" {
      DigitBack(s[0]);
      DigitBack(s[1]);
      LowerHexCanonical(s[2..]);
      var b := DecodeHex(s).value;
      assert b[1..] == DecodeHex(s[2..]).value;
      assert b[0] / 16 == HexValue(s[0]).value && b[0] % 16 == HexValue(s[1]).value;
      assert s == [s[0], s[1]] + s[2..];
    }
  }

  lemma {:induction false} EncodedIsLower(b: seq<byte>)
    ensures LowerHex(EncodeHex(b))
  {
    if b != [] {
      EncodedIsLower(b[1..]);
      var s := EncodeHex(b);
      assert s == [HexDigit(b[0] / 16), HexDigit(b[0] % 16)] + EncodeHex(b[1..]);
    }
  }

  /** Identities, keys and sessions have one text each, so members told apart
      by text are told apart by bytes. */
  lemma DecodeExactIff(s: string, size: nat, b: seq<byte>)
    ensures DecodeExact(s, size) == Some(b) <==> |b| == size && s == EncodeHex(b)
  {
    if DecodeExact(s, size) == Some(b) {
      LowerHexCanonical(s);
    }
    if s == EncodeHex(b) {
      HexRoundTrip(b);
      EncodedIsLower(b);
    }
  }

  // ------------------------------------------------------ the roster invariant

  /** Every entry is a proper host of the network, indexed by its own address
      and MAC, with keys for this pair of members. */
  ghost predicate EntryOk(cfg: Config, a: Addr, p: Peer) {
    && p.member.ip == Some(a) && HostAddress(cfg.prefix, a) && a != cfg.self
    && DecodeExact(p.member.identity, 32).Some? && p.mac == DeriveMac(cfg, DecodeExact(p.member.identity, 32).value)
    && DecodeExact(p.member.key, 32).Some? && p.mac != cfg.mac && Some(p.session) == DecodeExact(p.member.session, 16)
    && p.send == Key(cfg.zone, cfg.key, p.member.key) && p.receive == Key(cfg.zone, p.member.key, cfg.key)
  }

  ghost predicate EntriesOk(cfg: Config, peers: map<Addr, Peer>) {
    forall a | a in peers :: EntryOk(cfg, a, peers[a])
  }

  ghost predicate MacsFound(peers: map<Addr, Peer>, macs: map<Mac, Addr>) {
    forall a | a in peers :: peers[a].mac in macs && macs[peers[a].mac] == a
  }

  ghost predicate PeersFound(peers: map<Addr, Peer>, macs: map<Mac, Addr>) {
    forall m | m in macs :: macs[m] in peers && peers[macs[m]].mac == m
  }

  ghost predicate Distinct(p: Peer, q: Peer) { p.member.identity != q.member.identity && p.member.key != q.member.key }

  ghost predicate Unique(peers: map<Addr, Peer>) {
    forall a, b | a in peers && b in peers && a != b :: Distinct(peers[a], peers[b])
  }

  /** The two indexes hold the same peers one to one, and no two peers share an
      address, a MAC, an identity or an exchange key. */
  ghost predicate IndexOk(peers: map<Addr, Peer>, macs: map<Mac, Addr>) {
    MacsFound(peers, macs) && PeersFound(peers, macs) && Unique(peers)
  }

  ghost predicate Noted(d: Draft) {
    forall a | a in d.peers :: d.peers[a].member.identity in d.identities && d.peers[a].member.key in d.keys
  }

  ghost predicate Carried(kept: map<Addr, Peer>, a: Addr, p: Peer) {
    if a in kept && SameMember(kept[a], p.member) then p == kept[a] else p.last == 0
  }

  /** Replay state survives exactly for the members about which nothing changed. */
  ghost predicate ReplayKept(kept: map<Addr, Peer>, peers: map<Addr, Peer>) {
    forall a | a in peers :: Carried(kept, a, peers[a])
  }

  lemma InsertFound(peers: map<Addr, Peer>, macs: map<Mac, Addr>, a: Addr, p: Peer)
    requires MacsFound(peers, macs) && PeersFound(peers, macs) && a !in peers && p.mac !in macs
    ensures MacsFound(peers[a := p], macs[p.mac := a]) && PeersFound(peers[a := p], macs[p.mac := a])
  {
  }

  lemma InsertUnique(d: Draft, a: Addr, p: Peer)
    requires Unique(d.peers) && Noted(d) && p.member.identity !in d.identities && p.member.key !in d.keys
    ensures Unique(d.peers[a := p])
  {
    var e := d.peers[a := p];
    forall x, y | x in e && y in e && x != y
      ensures Distinct(e[x], e[y])
    {
      if x != a && y != a {
        assert Distinct(d.peers[x], d.peers[y]);
      }
    }
  }

  lemma InsertKeeps(d: Draft, e: Draft, a: Addr, p: Peer)
    requires IndexOk(d.peers, d.macs) && Noted(d)
    requires a !in d.peers && p.mac !in d.macs && p.member.identity !in d.identities && p.member.key !in d.keys
    requires e == Draft(d.peers[a := p], d.macs[p.mac := a], d.identities + {p.member.identity}, d.keys + {p.member.key})
    ensures IndexOk(e.peers, e.macs) && Noted(e)
  {
    InsertFound(d.peers, d.macs, a, p);
    InsertUnique(d, a, p);
  }

  /** The entry a member gets, kept or new. */
  lemma PeerForOk(cfg: Config, kept: map<Addr, Peer>, d: Draft, m: Member)
    requires Admissible(cfg, d, m) && EntriesOk(cfg, kept) && PeerFor(cfg, kept, m).Some?
    ensures var p := PeerFor(cfg, kept, m).value;
            && EntryOk(cfg, m.ip.value, p) && SameMember(p, m)
            && Carried(kept, m.ip.value, p)
  {
  }

  ghost predicate DraftOk(cfg: Config, kept: map<Addr, Peer>, d: Draft) {
    EntriesOk(cfg, d.peers) && IndexOk(d.peers, d.macs) && Noted(d) && ReplayKept(kept, d.peers)
  }

  lemma AdmitInserts(cfg: Config, kept: map<Addr, Peer>, d: Draft, m: Member)
    requires EntriesOk(cfg, kept) && Admit(cfg, kept, d, m).Some?
    ensures Admissible(cfg, d, m) && PeerFor(cfg, kept, m).Some?
    ensures var a, p, e := m.ip.value, PeerFor(cfg, kept, m).value, Admit(cfg, kept, d, m).value;
            && a !in d.peers && p.mac !in d.macs && p.member.identity !in d.identities && p.member.key !in d.keys
            && e == Draft(d.peers[a := p], d.macs[p.mac := a], d.identities + {p.member.identity}, d.keys + {p.member.key})
  {
    PeerForOk(cfg, kept, d, m);
  }

  lemma EntriesInsert(cfg: Config, peers: map<Addr, Peer>, a: Addr, p: Peer)
    requires EntriesOk(cfg, peers) && EntryOk(cfg, a, p)
    ensures EntriesOk(cfg, peers[a := p])
  {
  }

  lemma ReplayInsert(kept: map<Addr, Peer>, peers: map<Addr, Peer>, a: Addr, p: Peer)
    requires ReplayKept(kept, peers) && Carried(kept, a, p)
    ensures ReplayKept(kept, peers[a := p])
  {
  }

  lemma DraftInsert(cfg: Config, kept: map<Addr, Peer>, d: Draft, e: Draft, a: Addr, p: Peer)
    requires DraftOk(cfg, kept, d) && EntryOk(cfg, a, p)
    requires Carried(kept, a, p)
    requires a !in d.peers && p.mac !in d.macs && p.member.identity !in d.identities && p.member.key !in d.keys
    requires e == Draft(d.peers[a := p], d.macs[p.mac := a], d.identities + {p.member.identity}, d.keys + {p.member.key})
    ensures DraftOk(cfg, kept, e) && e.peers.Keys == d.peers.Keys + {a}
  {
    InsertKeeps(d, e, a, p);
    EntriesInsert(cfg, d.peers, a, p);
    ReplayInsert(kept, d.peers, a, p);
  }

  /** A member admitted to the draft adds one entry and keeps what the draft keeps. */
  lemma AdmitKeeps(cfg: Config, kept: map<Addr, Peer>, d: Draft, m: Member)
    requires DraftOk(cfg, kept, d) && EntriesOk(cfg, kept) && Admit(cfg, kept, d, m).Some?
    ensures m.ip.Some? && DraftOk(cfg, kept, Admit(cfg, kept, d, m).value)
    ensures Admit(cfg, kept, d, m).value.peers.Keys == d.peers.Keys + {m.ip.value}
  {
    AdmitInserts(cfg, kept, d, m);
    PeerForOk(cfg, kept, d, m);
    DraftInsert(cfg, kept, d, Admit(cfg, kept, d, m).value, m.ip.value, PeerFor(cfg, kept, m).value);
  }

  function Addresses(ms: seq<Member>): set<Addr> { set m | m in ms && m.ip.Some? :: m.ip.value }

  lemma AddressesMore(front: seq<Member>, last: Member)
    requires last.ip.Some?
    ensures Addresses(front + [last]) == Addresses(front) + {last.ip.value}
  {
  }

  lemma AdmitAllSplit(cfg: Config, kept: map<Addr, Peer>, front: seq<Member>, last: Member)
    requires AdmitAll(cfg, kept, front + [last]).Some?
    ensures AdmitAll(cfg, kept, front).Some?
    ensures AdmitAll(cfg, kept, front + [last]) == Admit(cfg, kept, AdmitAll(cfg, kept, front).value, last)
  {
    assert (front + [last])[..|front|] == front;
  }

  lemma {:induction false} AdmitAllKeeps(cfg: Config, kept: map<Addr, Peer>, ms: seq<Member>)
    requires EntriesOk(cfg, kept) && AdmitAll(cfg, kept, ms).Some?
    ensures DraftOk(cfg, kept, AdmitAll(cfg, kept, ms).value)
    ensures AdmitAll(cfg, kept, ms).value.peers.Keys == Addresses(ms)
    decreases |ms|
  {
    if ms != [] {
      var front, last := ms[..|ms| - 1], ms[|ms| - 1];
      assert ms == front + [last];
      AdmitAllSplit(cfg, kept, front, last);
      AdmitAllKeeps(cfg, kept, front);
      AdmitKeeps(cfg, kept, AdmitAll(cfg, kept, front).value, last);
      AddressesMore(front, last);
    }
  }

  ghost predicate StateOk(cfg: Config, st: State) { EntriesOk(cfg, st.peers) && IndexOk(st.peers, st.macs) }

  /** No two peers share identity bytes or exchange key bytes. */
  ghost predicate BytesApart(peers: map<Addr, Peer>) {
    forall a, b | a in peers && b in peers && a != b :: ApartAsBytes(peers[a].member, peers[b].member)
  }

  ghost predicate ApartAsBytes(m: Member, n: Member) {
    DecodeExact(m.identity, 32) != DecodeExact(n.identity, 32) && DecodeExact(m.key, 32) != DecodeExact(n.key, 32)
  }

  lemma TextApart(s: string, t: string, size: nat)
    requires s != t && DecodeExact(s, size).Some?
    ensures DecodeExact(s, size) != DecodeExact(t, size)
  {
    var b := DecodeExact(s, size).value;
    DecodeExactIff(s, size, b);
    DecodeExactIff(t, size, b);
  }

  lemma UniqueApart(cfg: Config, peers: map<Addr, Peer>)
    requires EntriesOk(cfg, peers) && Unique(peers)
    ensures BytesApart(peers)
  {
    forall a, b | a in peers && b in peers && a != b
      ensures ApartAsBytes(peers[a].member, peers[b].member)
    {
      assert Distinct(peers[a], peers[b]) && EntryOk(cfg, a, peers[a]);
      TextApart(peers[a].member.identity, peers[b].member.identity, 32);
      TextApart(peers[a].member.key, peers[b].member.key, 32);
    }
  }

  /** A successful update installs exactly the roster's members and keeps the
      invariant, the send counter and the replay state of unchanged members. */
  lemma UpdateInstalls(cfg: Config, st: State, r: Roster)
    requires StateOk(cfg, st) && Update(cfg, st, r).Some?
    ensures var t := Update(cfg, st, r).value;
            && StateOk(cfg, t) && t.next == st.next && ReplayKept(st.peers, t.peers)
            && t.peers.Keys == Addresses(r.members) && BytesApart(t.peers)
  {
    AdmitAllKeeps(cfg, st.peers, r.members);
    UniqueApart(cfg, Update(cfg, st, r).value.peers);
  }

  /** The entry at a listed member's address is that member's. */
  lemma {:induction false} AdmitAllLists(cfg: Config, kept: map<Addr, Peer>, ms: seq<Member>, m: Member)
    requires EntriesOk(cfg, kept) && AdmitAll(cfg, kept, ms).Some? && m in ms
    ensures m.ip.Some? && m.ip.value in AdmitAll(cfg, kept, ms).value.peers
    ensures SameMember(AdmitAll(cfg, kept, ms).value.peers[m.ip.value], m)
    decreases |ms|
  {
    var front, last := ms[..|ms| - 1], ms[|ms| - 1];
    assert ms == front + [last];
    AdmitAllSplit(cfg, kept, front, last);
    var d := AdmitAll(cfg, kept, front).value;
    AdmitInserts(cfg, kept, d, last);
    PeerForOk(cfg, kept, d, last);
    if m != last {
      AdmitAllLists(cfg, kept, front, m);
    }
  }

  /** An unchanged member keeps its entry, replay bound included. */
  lemma UpdateCarries(cfg: Config, st: State, r: Roster, a: Addr, m: Member)
    requires StateOk(cfg, st) && Update(cfg, st, r).Some?
    requires a in st.peers && SameMember(st.peers[a], m) && m in r.members && m.ip == Some(a)
    ensures a in Update(cfg, st, r).value.peers && Update(cfg, st, r).value.peers[a] == st.peers[a]
  {
    UpdateInstalls(cfg, st, r);
    AdmitAllLists(cfg, st.peers, r.members, m);
    assert Carried(st.peers, a, Update(cfg, st, r).value.peers[a]);
  }
}
