/** Exactly which rosters a zone packet cipher accepts, told from the roster
    and the cipher's configuration alone. */
module ZoneAdmission {
  import opened Bytes
  import opened ZoneCipher
  import opened ZoneRoster

  // ------------------------------------------------------------ the network

  /** 10.0.0.0/8, 172.16.0.0/12 and 192.168.0.0/16 (section 3 of RFC 1918). */
  predicate PrivateBytes(a: seq<byte>)
    requires |a| == 4
  {
    a[0] == 10 || (a[0] == 172 && 16 <= a[1] <= 31) || (a[0] == 192 && a[1] == 168)
  }

  /** Bit i of an address, counted from the most significant. */
  function AddrBit(a: Addr, i: nat): nat
    requires i < 32
  {
    a / Pow2(31 - i) % 2
  }

  /** The bits behind the network part are zero. */
  ghost predicate HostBitsClear(p: Prefix)
    requires p.bits <= 32
  {
    forall i | p.bits <= i < 32 :: AddrBit(p.base, i) == 0
  }

  /** Same network part, and a host part that is neither all zeros nor all ones. */
  predicate Host(p: Prefix, a: Addr)
    requires p.bits <= 32
  {
    var n := Pow2(32 - p.bits);
    a / n == p.base / n && a % n != 0 && a % n != n - 1
  }

  ghost predicate GoodNetwork(cfg: Config, r: Roster) {
    && r.zone.id == cfg.zone && r.zone.mtu == cfg.mtu && r.zone.cidr == Some(cfg.prefix) && r.self == Some(cfg.self)
    && 16 <= cfg.prefix.bits <= 30 && 576 <= cfg.mtu <= 1500
    && HostBitsClear(cfg.prefix) && PrivateBytes(BE(cfg.prefix.base, 4)) && Host(cfg.prefix, cfg.self)
  }

  // ------------------------------------------------------------- the members

  /** Lower-case hexadecimal text of this many bytes. */
  predicate HexText(s: string, size: nat) {
    |s| == 2 * size && forall i | 0 <= i < |s| :: '0' <= s[i] <= '9' || 'a' <= s[i] <= 'f'
  }

  /** Identity, key and session are those the cipher already has at this address. */
  predicate Unchanged(kept: map<Addr, Peer>, m: Member) {
    && m.ip.Some? && m.ip.value in kept
    && var had := kept[m.ip.value].member; had.identity == m.identity && had.key == m.key && had.session == m.session
  }

  /** What a member must be on its own. */
  ghost predicate GoodMember(cfg: Config, kept: map<Addr, Peer>, m: Member) {
    && m.ip.Some? && cfg.prefix.bits <= 32 && Host(cfg.prefix, m.ip.value) && m.ip.value != cfg.self
    && HexText(m.identity, 32) && HexText(m.key, 32) && HexText(m.session, 16)
    && MacOf(cfg, m) != cfg.mac && (Unchanged(kept, m) || cfg.usable(m.key))
  }

  /** The MAC address a member's identity gives it. */
  ghost function MacOf(cfg: Config, m: Member): Mac {
    var id := DecodeHex(m.identity);
    DeriveMac(cfg, if id.Some? then id.value else [])
  }

  /** What two members must not share. */
  ghost predicate Apart(cfg: Config, m: Member, n: Member) {
    m.ip != n.ip && m.identity != n.identity && m.key != n.key && MacOf(cfg, m) != MacOf(cfg, n)
  }

  ghost predicate GoodMembers(cfg: Config, kept: map<Addr, Peer>, ms: seq<Member>) {
    && (forall i | 0 <= i < |ms| :: GoodMember(cfg, kept, ms[i]))
    && (forall i, j | 0 <= i < j < |ms| :: Apart(cfg, ms[i], ms[j]))
  }

  // -------------------------------------------------------------- arithmetic

  predicate ZeroBit(a: nat, j: nat) { a / Pow2(j) % 2 == 0 }

  lemma {:induction false} LowBits(a: nat, n: nat)
    ensures a % Pow2(n) == 0 <==> forall j | 0 <= j < n :: ZeroBit(a, j)
  {
    if n > 0 {
      LowBits(a, n - 1);
      var m := Pow2(n - 1);
      HalfStep(a, m);
      assert ZeroBit(a, n - 1) <==> a / m % 2 == 0;
      assert (forall j | 0 <= j < n :: ZeroBit(a, j)) <==> (forall j | 0 <= j < n - 1 :: ZeroBit(a, j)) && ZeroBit(a, n - 1);
    }
  }

  lemma HalfStep(a: nat, m: nat)
    requires m > 0
    ensures a % (2 * m) == 0 <==> a % m == 0 && a / m % 2 == 0
  {
    var q, r := a / m, a % m;
    Euclid(a, m);
    Twice(m, q);
    if q % 2 == 0 {
      DivMod(a, 2 * m, q / 2, r);
    } else {
      assert m * (q - 1) == m * q - m;
      DivMod(a, 2 * m, q / 2, m + r);
    }
  }

  lemma Twice(m: nat, q: nat)
    ensures (2 * m) * (q / 2) == m * (q - q % 2)
  {
    assert q - q % 2 == 2 * (q / 2);
    DoubleFactor(m, q / 2);
  }

  lemma DoubleFactor(m: nat, h: nat)
    ensures (2 * m) * h == m * (2 * h)
  {
  }

  lemma Euclid(a: nat, n: nat)
    requires n > 0
    ensures a == n * (a / n) + a % n && 0 <= a % n < n
  {
  }

  lemma MulAtLeast(n: nat, k: int)
    requires k >= 1
    ensures n * k >= n
  {
    assert n * k == n * (k - 1) + n;
  }

  lemma UniqueQuotient(n: nat, q: int, r: int, p: int, s: int)
    requires n > 0 && 0 <= r < n && 0 <= s < n && n * q + r == n * p + s
    ensures q == p && r == s
  {
    assert n * (q - p) == s - r && n * (p - q) == r - s;
    if q > p {
      MulAtLeast(n, q - p);
    } else if p > q {
      MulAtLeast(n, p - q);
    }
  }

  lemma DivMod(a: nat, n: nat, q: nat, r: nat)
    requires n > 0 && a == n * q + r && r < n
    ensures a / n == q && a % n == r
  {
    Euclid(a, n);
    UniqueQuotient(n, q, r, a / n, a % n);
  }

  lemma HostBitsIff(p: Prefix)
    requires p.bits <= 32
    ensures HostBitsClear(p) <==> p.base % Size(p) == 0
  {
    var n := 32 - p.bits;
    LowBits(p.base, n);
    if HostBitsClear(p) {
      forall j | 0 <= j < n
        ensures ZeroBit(p.base, j)
      {
        assert AddrBit(p.base, 31 - j) == 0;
      }
    } else {
      var i :| p.bits <= i < 32 && AddrBit(p.base, i) != 0;
      assert !ZeroBit(p.base, 31 - i);
    }
  }

  lemma HostIff(p: Prefix, a: Addr)
    requires p.bits <= 30 && p.base % Size(p) == 0
    ensures Host(p, a) <==> HostAddress(p, a)
  {
    var n := Size(p);
    var q := p.base / n;
    Euclid(p.base, n);
    Euclid(a, n);
    if HostAddress(p, a) {
      DivMod(a, n, q, a - p.base);
    }
  }

  lemma PrivateIff(a: Addr)
    ensures PrivateBytes(BE(a, 4)) <==> Private(a)
  {
    BEFour(a);
  }

  lemma {:induction false} HexIff(s: string)
    ensures DecodeHex(s).Some? && LowerHex(s) <==> |s| % 2 == 0 && HexText(s, |s| / 2)
    decreases |s|
  {
    if |s| >= 2 {
      HexIff(s[2..]);
      assert s == [s[0], s[1]] + s[2..];
    }
  }

  lemma HexTextIff(s: string, size: nat)
    ensures DecodeExact(s, size).Some? <==> HexText(s, size)
    ensures DecodeExact(s, size).Some? ==> DecodeExact(s, size) == DecodeHex(s)
  {
    HexIff(s);
  }

  lemma NetworkIff(cfg: Config, r: Roster)
    ensures GoodNetwork(cfg, r) <==>
              && NetworkOk(r.zone, cfg.zone, r.self) && r.self == Some(cfg.self)
              && r.zone.cidr == Some(cfg.prefix) && r.zone.mtu == cfg.mtu
  {
    if cfg.prefix.bits <= 30 {
      HostBitsIff(cfg.prefix);
      PrivateIff(cfg.prefix.base);
      if cfg.prefix.base % Size(cfg.prefix) == 0 {
        HostIff(cfg.prefix, cfg.self);
      }
    }
  }

  // ------------------------------------------------------ one member at a time

  function Identities(ms: seq<Member>): set<string> { set m | m in ms :: m.identity }

  function Keys(ms: seq<Member>): set<string> { set m | m in ms :: m.key }

  ghost function Macs(cfg: Config, ms: seq<Member>): set<Mac> { set m | m in ms :: MacOf(cfg, m) }

  /** The draft of a roster pass holds what the members so far brought in. */
  ghost predicate Collected(cfg: Config, d: Draft, ms: seq<Member>) {
    && d.peers.Keys == Addresses(ms) && d.identities == Identities(ms)
    && d.keys == Keys(ms) && d.macs.Keys == Macs(cfg, ms)
  }

  lemma NamesMore(ms: seq<Member>, m: Member)
    ensures Identities(ms + [m]) == Identities(ms) + {m.identity} && Keys(ms + [m]) == Keys(ms) + {m.key}
  {
    assert forall x :: x in ms + [m] <==> x in ms || x == m;
  }

  lemma MacsMore(cfg: Config, ms: seq<Member>, m: Member)
    ensures Macs(cfg, ms + [m]) == Macs(cfg, ms) + {MacOf(cfg, m)}
  {
    assert forall x :: x in ms + [m] <==> x in ms || x == m;
  }

  lemma KeysMore<K, V>(entries: map<K, V>, k: K, v: V)
    ensures entries[k := v].Keys == entries.Keys + {k}
  {
  }

  /** Nobody among these members shares anything with m. */
  ghost predicate ApartFromAll(cfg: Config, ms: seq<Member>, m: Member) {
    forall i | 0 <= i < |ms| :: Apart(cfg, ms[i], m)
  }

  lemma ApartIff(cfg: Config, ms: seq<Member>, m: Member)
    requires m.ip.Some?
    ensures ApartFromAll(cfg, ms, m) <==>
              && m.ip.value !in Addresses(ms) && m.identity !in Identities(ms)
              && m.key !in Keys(ms) && MacOf(cfg, m) !in Macs(cfg, ms)
  {
    if ApartFromAll(cfg, ms, m) {
      forall x | x in ms
        ensures Apart(cfg, x, m)
      {
        var i :| 0 <= i < |ms| && ms[i] == x;
      }
    } else {
      var i :| 0 <= i < |ms| && !Apart(cfg, ms[i], m);
      assert ms[i] in ms;
    }
  }

  ghost predicate NetworkFits(cfg: Config) { cfg.prefix.bits <= 30 && cfg.prefix.base % Size(cfg.prefix) == 0 }

  lemma AdmissibleIff(cfg: Config, d: Draft, ms: seq<Member>, m: Member)
    requires NetworkFits(cfg) && Collected(cfg, d, ms)
    ensures Admissible(cfg, d, m) <==>
              && m.ip.Some? && Host(cfg.prefix, m.ip.value) && m.ip.value != cfg.self
              && HexText(m.identity, 32) && HexText(m.key, 32) && HexText(m.session, 16)
              && MacOf(cfg, m) != cfg.mac && ApartFromAll(cfg, ms, m)
    ensures Admissible(cfg, d, m) ==> DeriveMac(cfg, DecodeExact(m.identity, 32).value) == MacOf(cfg, m)
  {
    HexTextIff(m.identity, 32);
    HexTextIff(m.key, 32);
    HexTextIff(m.session, 16);
    if m.ip.Some? {
      HostIff(cfg.prefix, m.ip.value);
      ApartIff(cfg, ms, m);
    }
  }

  /** Inserting one member keeps the draft the collection of its members. */
  lemma InsertCollects(cfg: Config, d: Draft, ms: seq<Member>, m: Member, p: Peer)
    requires Collected(cfg, d, ms) && m.ip.Some?
    ensures Collected(cfg, Draft(d.peers[m.ip.value := p], d.macs[MacOf(cfg, m) := m.ip.value],
                                 d.identities + {m.identity}, d.keys + {m.key}), ms + [m])
  {
    AddressesMore(ms, m);
    NamesMore(ms, m);
    MacsMore(cfg, ms, m);
    KeysMore(d.peers, m.ip.value, p);
    KeysMore(d.macs, MacOf(cfg, m), m.ip.value);
  }

  lemma AdmitIff(cfg: Config, kept: map<Addr, Peer>, d: Draft, ms: seq<Member>, m: Member)
    requires NetworkFits(cfg) && Collected(cfg, d, ms)
    ensures Admit(cfg, kept, d, m).Some? <==> GoodMember(cfg, kept, m) && ApartFromAll(cfg, ms, m)
  {
    AdmissibleIff(cfg, d, ms, m);
  }

  lemma AdmitCollects(cfg: Config, kept: map<Addr, Peer>, d: Draft, ms: seq<Member>, m: Member)
    requires NetworkFits(cfg) && Collected(cfg, d, ms) && Admit(cfg, kept, d, m).Some?
    ensures Collected(cfg, Admit(cfg, kept, d, m).value, ms + [m])
  {
    AdmissibleIff(cfg, d, ms, m);
    InsertCollects(cfg, d, ms, m, PeerFor(cfg, kept, m).value);
  }

  lemma GoodMore(cfg: Config, kept: map<Addr, Peer>, ms: seq<Member>, m: Member)
    ensures GoodMembers(cfg, kept, ms + [m]) <==> GoodMembers(cfg, kept, ms) && GoodMember(cfg, kept, m) && ApartFromAll(cfg, ms, m)
  {
    var all := ms + [m];
    if GoodMembers(cfg, kept, all) {
      assert forall i | 0 <= i < |ms| :: all[i] == ms[i];
      assert all[|ms|] == m;
    }
  }

  lemma AdmitAllLast(cfg: Config, kept: map<Addr, Peer>, front: seq<Member>, last: Member)
    ensures var d := AdmitAll(cfg, kept, front);
            AdmitAll(cfg, kept, front + [last]) == if d.None? then None else Admit(cfg, kept, d.value, last)
  {
    assert (front + [last])[..|front|] == front;
  }

  lemma {:induction false} AdmitAllIff(cfg: Config, kept: map<Addr, Peer>, ms: seq<Member>)
    requires NetworkFits(cfg)
    ensures AdmitAll(cfg, kept, ms).Some? <==> GoodMembers(cfg, kept, ms)
    ensures AdmitAll(cfg, kept, ms).Some? ==> Collected(cfg, AdmitAll(cfg, kept, ms).value, ms)
    decreases |ms|
  {
    if ms != [] {
      var front, last := ms[..|ms| - 1], ms[|ms| - 1];
      assert ms == front + [last];
      AdmitAllIff(cfg, kept, front);
      AdmitAllLast(cfg, kept, front, last);
      GoodMore(cfg, kept, front, last);
      if AdmitAll(cfg, kept, front).Some? {
        var d := AdmitAll(cfg, kept, front).value;
        AdmitIff(cfg, kept, d, front, last);
        if Admit(cfg, kept, d, last).Some? {
          AdmitCollects(cfg, kept, d, front, last);
        }
      }
    }
  }

  /** A roster is accepted if and only if its network is the cipher's own and a
      private one of a proper size, it lists at most 255 members, every member
      is a proper host with proper texts and a usable or unchanged key, and no
      two members share an address, an identity, a key or a MAC address. */
  lemma UpdateIff(cfg: Config, st: State, r: Roster)
    ensures Update(cfg, st, r).Some? <==> GoodNetwork(cfg, r) && |r.members| <= 255 && GoodMembers(cfg, st.peers, r.members)
  {
    NetworkIff(cfg, r);
    if GoodNetwork(cfg, r) {
      HostBitsIff(cfg.prefix);
      AdmitAllIff(cfg, st.peers, r.members);
    }
  }

  /** After an accepted roster a member about which nothing changed has its old
      entry, replay bound included; any other listed member has a new one with
      replay bound zero. */
  lemma UpdateReplays(cfg: Config, st: State, r: Roster, m: Member)
    requires StateOk(cfg, st) && Update(cfg, st, r).Some? && m in r.members
    ensures var t := Update(cfg, st, r).value;
            && m.ip.Some? && m.ip.value in t.peers
            && if Unchanged(st.peers, m) then t.peers[m.ip.value] == st.peers[m.ip.value]
               else t.peers[m.ip.value].last == 0 && t.peers[m.ip.value].member.session == m.session
  {
    UpdateInstalls(cfg, st, r);
    AdmitAllLists(cfg, st.peers, r.members, m);
    assert Carried(st.peers, m.ip.value, Update(cfg, st, r).value.peers[m.ip.value]);
  }
}
