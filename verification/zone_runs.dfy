/** Whole runs of a zone sender and a zone receiver: numbering, ordering and
    the round trips of the three message kinds. */
module ZoneRuns {
  import opened Bytes
  import opened ZoneCipher
  import opened ZoneRoster

  // ------------------------------------------------------------- one endpoint

  /** What may happen at a member. `Message` covers stream data and datagrams,
      `Deliver` the opening of any message kind. */
  datatype Event =
    | Message(to: Addr, current: bool, prefix: seq<byte>, payload: seq<byte>)
    | Ethernet(frame: seq<byte>, order: seq<Addr>)
    | Replace(roster: Roster)
    | Deliver(from: Addr, current: bool, packet: Packet, check: Check)

  /** The new state, every message sealed on the way, and the message accepted. */
  datatype Outcome = Outcome(state: State, sealed: seq<Packet>, accepted: Option<Packet>)

  function Act(cfg: Config, st: State, ev: Event): Outcome {
    match ev
    case Message(to, current, prefix, payload) =>
      var s := SealTo(cfg, st, to, current, prefix, payload);
      if s.None? then Outcome(st, [], None) else Outcome(s.value.0, [s.value.1], None)
    case Ethernet(frame, order) =>
      if !Lists(order, st.peers) || !Indexed(st) then Outcome(st, [], None)
      else
        var f := SealFrame(cfg, st, frame, order);
        Outcome(f.state, f.sealed, None)
    case Replace(roster) =>
      var u := Update(cfg, st, roster);
      if u.None? then Outcome(st, [], None) else Outcome(u.value, [], None)
    case Deliver(from, current, packet, check) =>
      var o := Open(st, from, current, packet, check);
      Outcome(o.0, [], if o.1.None? then None else Some(packet))
  }

  // ------------------------------------------------------- sealed numbering

  /** A message of this member that carries number n throughout. */
  ghost predicate Stamped(cfg: Config, p: Packet, n: nat) {
    && |p.header| >= 8 && p.body.session == cfg.session && p.body.header == p.header
    && p.body.counter == p.header[|p.header| - 8..] && SequenceOf(p) == n
  }

  /** Consecutive numbers, the first just above `base`. */
  ghost predicate Numbered(cfg: Config, base: nat, sealed: seq<Packet>) {
    forall i | 0 <= i < |sealed| :: Stamped(cfg, sealed[i], base + 1 + i)
  }

  lemma SealStamps(cfg: Config, st: State, key: Key, prefix: seq<byte>, payload: seq<byte>)
    requires Seal(cfg, st, key, prefix, payload).Some?
    ensures var r := Seal(cfg, st, key, prefix, payload).value;
            && Stamped(cfg, r.1, st.next + 1) && r.0.next == st.next + 1
            && r.1.header[..|r.1.header| - 8] == prefix
  {
    var r, n := Seal(cfg, st, key, prefix, payload).value, st.next + 1;
    assert r.1.header[|prefix|..] == BE(n, 8);
    Pow256Values();
    BERoundTrip(n, 8);
  }

  lemma NumberedJoin(cfg: Config, base: nat, s: seq<Packet>, t: seq<Packet>)
    requires Numbered(cfg, base, s) && Numbered(cfg, base + |s|, t)
    ensures Numbered(cfg, base, s + t)
  {
    forall i | 0 <= i < |s + t|
      ensures Stamped(cfg, (s + t)[i], base + 1 + i)
    {
      if i >= |s| {
        assert (s + t)[i] == t[i - |s|];
      }
    }
  }

  lemma {:induction false} SealEachNumbers(cfg: Config, st: State, targets: seq<Addr>, prefix: seq<byte>, payload: seq<byte>)
    requires forall i | 0 <= i < |targets| :: targets[i] in st.peers
    ensures var f := SealEach(cfg, st, targets, prefix, payload);
            Numbered(cfg, st.next, f.sealed) && f.state.next == st.next + |f.sealed|
    decreases |targets|
  {
    if targets != [] {
      SealEachNumbers(cfg, st, targets[..|targets| - 1], prefix, payload);
      var f := SealEach(cfg, st, targets[..|targets| - 1], prefix, payload);
      var key := st.peers[targets[|targets| - 1]].send;
      if f.ok && Seal(cfg, f.state, key, prefix, payload).Some? {
        SealStamps(cfg, f.state, key, prefix, payload);
        NumberedJoin(cfg, st.next, f.sealed, [Seal(cfg, f.state, key, prefix, payload).value.1]);
      }
    }
  }

  lemma ActNumbers(cfg: Config, st: State, ev: Event)
    ensures var o := Act(cfg, st, ev);
            Numbered(cfg, st.next, o.sealed) && o.state.next == st.next + |o.sealed|
  {
    match ev
    case Message(to, current, prefix, payload) =>
      if SealTo(cfg, st, to, current, prefix, payload).Some? {
        SealStamps(cfg, st, st.peers[to].send, prefix, payload);
      }
    case Ethernet(frame, order) =>
      if Lists(order, st.peers) && Indexed(st) && FrameTargets(cfg, st, frame, order).Some? {
        SealEachNumbers(cfg, st, FrameTargets(cfg, st, frame, order).value, FramePrefix(cfg.mac, frame[0..6]), frame);
      }
    case Replace(roster) =>
    case Deliver(from, current, packet, check) =>
  }

  /** A whole run of one member. */
  function Life(cfg: Config, st: State, evs: seq<Event>): (State, seq<Packet>) {
    if evs == [] then (st, [])
    else
      var (s, sealed) := Life(cfg, st, evs[..|evs| - 1]);
      var o := Act(cfg, s, evs[|evs| - 1]);
      (o.state, sealed + o.sealed)
  }

  lemma {:induction false} LifeNumbers(cfg: Config, st: State, evs: seq<Event>)
    ensures var (s, sealed) := Life(cfg, st, evs); Numbered(cfg, st.next, sealed) && s.next == st.next + |sealed|
    decreases |evs|
  {
    if evs != [] {
      LifeNumbers(cfg, st, evs[..|evs| - 1]);
      var (s, sealed) := Life(cfg, st, evs[..|evs| - 1]);
      ActNumbers(cfg, s, evs[|evs| - 1]);
      NumberedJoin(cfg, st.next, sealed, Act(cfg, s, evs[|evs| - 1]).sealed);
    }
  }

  /** The 24-byte nonce a message is sealed under. */
  function Nonce(p: Packet): seq<byte> { p.body.session + p.body.counter }

  /** Over any run of seals, floods and roster updates no nonce is used twice,
      whoever the messages are for. */
  lemma NonceNeverReused(cfg: Config, st: State, evs: seq<Event>, i: nat, j: nat)
    requires i < j < |Life(cfg, st, evs).1|
    ensures Nonce(Life(cfg, st, evs).1[i]) != Nonce(Life(cfg, st, evs).1[j])
  {
    LifeNumbers(cfg, st, evs);
    var p, q := Life(cfg, st, evs).1[i], Life(cfg, st, evs).1[j];
    assert Stamped(cfg, p, st.next + 1 + i) && Stamped(cfg, q, st.next + 1 + j);
    assert FromBE(p.body.counter) != FromBE(q.body.counter);
    assert Nonce(p)[|cfg.session|..] == p.body.counter && Nonce(q)[|cfg.session|..] == q.body.counter;
  }

  // ------------------------------------------------- a sender and a receiver

  /** A message the receiver accepted from the peer at `from`. When it is a copy
      of one of the sender's messages, `index` is its place in the sender's log. */
  datatype Accepted = Accepted(from: Addr, index: nat, packet: Packet)

  datatype System = System(a: State, b: State, sealed: seq<Packet>, accepted: seq<Accepted>)

  /** `Carry` puts any header in front of any body the sender ever sealed, any
      number of times and in any order. */
  datatype Step =
    | Sender(ev: Event)
    | Receiver(ev: Event)
    | Carry(index: nat, header: seq<byte>, from: Addr, current: bool, check: Check)

  /** The key from a to b. Exchange keys are distinct, so only a seals under it. */
  function Line(ca: Config, cb: Config): Key { Key(ca.zone, ca.key, cb.key) }

  function Note(s: System, o: Outcome, from: Addr, index: nat): System {
    s.(b := o.state,
       accepted := s.accepted + if o.accepted.None? then [] else [Accepted(from, index, o.accepted.value)])
  }

  function Next(ca: Config, cb: Config, s: System, step: Step): System {
    match step
    case Sender(ev) =>
      var o := Act(ca, s.a, ev);
      s.(a := o.state, sealed := s.sealed + o.sealed)
    case Receiver(ev) =>
      if !ev.Deliver? then s.(b := Act(cb, s.b, ev).state)
      else if ev.packet.body.key == Line(ca, cb) then s
      else Note(s, Act(cb, s.b, ev), ev.from, 0)
    case Carry(index, header, from, current, check) =>
      if index >= |s.sealed| then s
      else Note(s, Act(cb, s.b, Deliver(from, current, Packet(header, s.sealed[index].body), check)), from, index)
  }

  function Run(ca: Config, cb: Config, s: System, steps: seq<Step>): System {
    if steps == [] then s else Next(ca, cb, Run(ca, cb, s, steps[..|steps| - 1]), steps[|steps| - 1])
  }

  /** What every reachable system keeps. `base` is the sender's first counter. */
  ghost predicate Inv(ca: Config, cb: Config, base: nat, s: System) {
    StateOk(cb, s.b) && Numbered(ca, base, s.sealed) && s.a.next == base + |s.sealed|
  }

  // -------------------------------------------------- the receiver's invariant

  lemma BumpIndex(st: State, a: Addr, n: Uint64)
    requires IndexOk(st.peers, st.macs) && a in st.peers
    ensures IndexOk(st.peers[a := st.peers[a].(last := n)], st.macs)
  {
    var after := st.peers[a := st.peers[a].(last := n)];
    forall x, y | x in after && y in after && x != y
      ensures Distinct(after[x], after[y])
    {
      assert Distinct(st.peers[x], st.peers[y]);
    }
  }

  lemma BumpKeeps(cfg: Config, st: State, a: Addr, n: Uint64)
    requires StateOk(cfg, st) && a in st.peers
    ensures StateOk(cfg, st.(peers := st.peers[a := st.peers[a].(last := n)]))
  {
    assert EntryOk(cfg, a, st.peers[a]);
    EntriesInsert(cfg, st.peers, a, st.peers[a].(last := n));
    BumpIndex(st, a, n);
  }

  lemma OpenKeeps(cfg: Config, st: State, from: Addr, current: bool, p: Packet, check: Check)
    requires StateOk(cfg, st)
    ensures StateOk(cfg, Open(st, from, current, p, check).0)
  {
    if Open(st, from, current, p, check).1.Some? {
      BumpKeeps(cfg, st, from, SequenceOf(p));
    }
  }

  lemma SealingKeeps(cfg: Config, st: State, ev: Event)
    requires ev.Message? || ev.Ethernet?
    ensures Act(cfg, st, ev).state.peers == st.peers && Act(cfg, st, ev).state.macs == st.macs
  {
  }

  lemma ActKeeps(cfg: Config, st: State, ev: Event)
    requires StateOk(cfg, st)
    ensures StateOk(cfg, Act(cfg, st, ev).state)
  {
    if ev.Replace? {
      if Update(cfg, st, ev.roster).Some? {
        UpdateInstalls(cfg, st, ev.roster);
      }
    } else if ev.Deliver? {
      OpenKeeps(cfg, st, ev.from, ev.current, ev.packet, ev.check);
    } else {
      SealingKeeps(cfg, st, ev);
    }
  }

  lemma NextKeeps(ca: Config, cb: Config, base: nat, s: System, step: Step)
    requires Inv(ca, cb, base, s)
    ensures Inv(ca, cb, base, Next(ca, cb, s, step))
  {
    match step
    case Sender(ev) =>
      ActNumbers(ca, s.a, ev);
      NumberedJoin(ca, base, s.sealed, Act(ca, s.a, ev).sealed);
    case Receiver(ev) => ActKeeps(cb, s.b, ev);
    case Carry(index, header, from, current, check) =>
      if index < |s.sealed| {
        ActKeeps(cb, s.b, Deliver(from, current, Packet(header, s.sealed[index].body), check));
      }
  }

  lemma {:induction false} RunKeeps(ca: Config, cb: Config, base: nat, s: System, steps: seq<Step>)
    requires Inv(ca, cb, base, s)
    ensures Inv(ca, cb, base, Run(ca, cb, s, steps))
    decreases |steps|
  {
    if steps != [] {
      RunKeeps(ca, cb, base, s, steps[..|steps| - 1]);
      NextKeeps(ca, cb, base, Run(ca, cb, s, steps[..|steps| - 1]), steps[|steps| - 1]);
    }
  }

  // ---------------------------------------------------- accepted subsequence

  /** Every roster the receiver is given still lists the member. */
  ghost predicate Listed(steps: seq<Step>, m: Member) {
    forall i | 0 <= i < |steps| :: steps[i].Receiver? && steps[i].ev.Replace? ==> m in steps[i].ev.roster.members
  }

  /** The receiver's entry is the one of `s0` with a later replay bound. */
  ghost predicate SameEntry(s0: System, s: System, at: Addr) {
    && at in s0.b.peers && at in s.b.peers && s.b.peers[at] == s0.b.peers[at].(last := s.b.peers[at].last)
  }

  /** Accepted from the peer: the sender's own message, unaltered, already
      covered by the replay bound. */
  ghost predicate Taken(base: nat, s: System, at: Addr, x: Accepted) {
    && at in s.b.peers && x.from == at && x.index < |s.sealed| && x.packet == s.sealed[x.index]
    && base + 1 + x.index <= s.b.peers[at].last
  }

  ghost predicate InOrder(base: nat, s: System, at: Addr, since: nat) {
    && since <= |s.accepted|
    && (forall k | since <= k < |s.accepted| && s.accepted[k].from == at :: Taken(base, s, at, s.accepted[k]))
    && (forall k, l | since <= k < l < |s.accepted| && s.accepted[k].from == at && s.accepted[l].from == at ::
          s.accepted[k].index < s.accepted[l].index)
  }

  lemma InOrderMore(base: nat, s: System, t: System, at: Addr, since: nat, extra: seq<Accepted>)
    requires InOrder(base, s, at, since) && at in s.b.peers && at in t.b.peers
    requires s.b.peers[at].last <= t.b.peers[at].last && s.sealed <= t.sealed
    requires t.accepted == s.accepted + extra && |extra| <= 1
    requires |extra| == 1 && extra[0].from == at ==>
               Taken(base, t, at, extra[0]) && s.b.peers[at].last < base + 1 + extra[0].index
    ensures InOrder(base, t, at, since)
  {
    forall k | since <= k < |t.accepted| && t.accepted[k].from == at
      ensures Taken(base, t, at, t.accepted[k])
    {
      if k < |s.accepted| {
        assert Taken(base, s, at, s.accepted[k]);
      }
    }
    forall k, l | since <= k < l < |t.accepted| && t.accepted[k].from == at && t.accepted[l].from == at
      ensures t.accepted[k].index < t.accepted[l].index
    {
      assert Taken(base, s, at, s.accepted[k]);
    }
  }

  /** Opening changes one replay bound, and only upwards. */
  lemma OpenRaises(st: State, from: Addr, current: bool, p: Packet, check: Check, at: Addr)
    requires at in st.peers
    ensures var (t, plain) := Open(st, from, current, p, check);
            && (plain.None? ==> t == st)
            && at in t.peers && t.peers[at] == st.peers[at].(last := t.peers[at].last)
            && st.peers[at].last <= t.peers[at].last
            && (at != from ==> t.peers[at] == st.peers[at])
            && (plain.Some? && at == from ==>
                  |p.header| >= 8 && t.peers[at].last == SequenceOf(p) > st.peers[at].last && p.body.key == st.peers[at].receive)
  {
  }

  /** The system after a message was opened. */
  function Opened(s: System, from: Addr, current: bool, p: Packet, check: Check, index: nat): System {
    var o := Open(s.b, from, current, p, check);
    s.(b := o.0, accepted := s.accepted + if o.1.None? then [] else [Accepted(from, index, p)])
  }

  lemma OpenedInOrder(base: nat, s: System, from: Addr, current: bool, p: Packet, check: Check, index: nat, at: Addr, since: nat)
    requires at in s.b.peers && InOrder(base, s, at, since)
    requires from == at && Open(s.b, from, current, p, check).1.Some? ==>
               index < |s.sealed| && p == s.sealed[index] && |p.header| >= 8 && SequenceOf(p) == base + 1 + index
    ensures InOrder(base, Opened(s, from, current, p, check, index), at, since)
    ensures SameEntry(s, Opened(s, from, current, p, check, index), at)
  {
    var t, o := Opened(s, from, current, p, check, index), Open(s.b, from, current, p, check);
    OpenRaises(s.b, from, current, p, check, at);
    InOrderMore(base, s, t, at, since, if o.1.None? then [] else [Accepted(from, index, p)]);
  }

  lemma OpenedUnaltered(cfg: Config, st: State, from: Addr, current: bool, p: Packet, check: Check, original: Packet, n: nat)
    requires Stamped(cfg, original, n) && p.body == original.body && Open(st, from, current, p, check).1.Some?
    ensures p == original && |p.header| >= 8 && SequenceOf(p) == n
  {
  }

  lemma CarryInOrder(ca: Config, cb: Config, base: nat, s: System, step: Step, at: Addr, since: nat)
    requires Numbered(ca, base, s.sealed) && step.Carry? && step.index < |s.sealed| && at in s.b.peers && InOrder(base, s, at, since)
    ensures InOrder(base, Next(ca, cb, s, step), at, since) && SameEntry(s, Next(ca, cb, s, step), at)
  {
    var p := Packet(step.header, s.sealed[step.index].body);
    assert Next(ca, cb, s, step) == Opened(s, step.from, step.current, p, step.check, step.index);
    if Open(s.b, step.from, step.current, p, step.check).1.Some? {
      OpenedUnaltered(ca, s.b, step.from, step.current, p, step.check, s.sealed[step.index], base + 1 + step.index);
    }
    OpenedInOrder(base, s, step.from, step.current, p, step.check, step.index, at, since);
  }

  lemma ForeignInOrder(ca: Config, cb: Config, base: nat, s: System, ev: Event, at: Addr, since: nat)
    requires EntriesOk(cb, s.b.peers) && ev.Deliver? && ev.packet.body.key != Line(ca, cb)
    requires at in s.b.peers && InOrder(base, s, at, since) && s.b.peers[at].member.key == ca.key && ca.zone == cb.zone
    ensures InOrder(base, Next(ca, cb, s, Receiver(ev)), at, since) && SameEntry(s, Next(ca, cb, s, Receiver(ev)), at)
  {
    assert EntryOk(cb, at, s.b.peers[at]);
    assert Next(ca, cb, s, Receiver(ev)) == Opened(s, ev.from, ev.current, ev.packet, ev.check, 0);
    OpenRaises(s.b, ev.from, ev.current, ev.packet, ev.check, at);
    OpenedInOrder(base, s, ev.from, ev.current, ev.packet, ev.check, 0, at, since);
  }

  lemma RosterCarries(cfg: Config, st: State, ev: Event, at: Addr, m: Member)
    requires StateOk(cfg, st) && !ev.Deliver? && at in st.peers && SameMember(st.peers[at], m) && m.ip == Some(at)
    requires ev.Replace? ==> m in ev.roster.members
    ensures at in Act(cfg, st, ev).state.peers && Act(cfg, st, ev).state.peers[at] == st.peers[at]
  {
    if !ev.Replace? {
      SealingKeeps(cfg, st, ev);
    } else if Update(cfg, st, ev.roster).Some? {
      UpdateCarries(cfg, st, ev.roster, at, m);
    }
  }

  lemma RosterInOrder(ca: Config, cb: Config, base: nat, s: System, ev: Event, at: Addr, m: Member, since: nat)
    requires StateOk(cb, s.b) && !ev.Deliver?
    requires at in s.b.peers && InOrder(base, s, at, since) && SameMember(s.b.peers[at], m) && m.ip == Some(at)
    requires ev.Replace? ==> m in ev.roster.members
    ensures InOrder(base, Next(ca, cb, s, Receiver(ev)), at, since) && SameEntry(s, Next(ca, cb, s, Receiver(ev)), at)
  {
    RosterCarries(cb, s.b, ev, at, m);
    InOrderMore(base, s, Next(ca, cb, s, Receiver(ev)), at, since, []);
  }

  lemma StepInOrder(ca: Config, cb: Config, base: nat, s: System, step: Step, at: Addr, m: Member, since: nat)
    requires Inv(ca, cb, base, s) && at in s.b.peers && InOrder(base, s, at, since)
    requires SameMember(s.b.peers[at], m) && m.ip == Some(at) && m.key == ca.key && ca.zone == cb.zone
    requires step.Receiver? && step.ev.Replace? ==> m in step.ev.roster.members
    ensures InOrder(base, Next(ca, cb, s, step), at, since) && SameEntry(s, Next(ca, cb, s, step), at)
  {
    match step
    case Sender(ev) => InOrderMore(base, s, Next(ca, cb, s, step), at, since, []);
    case Receiver(ev) =>
      if !ev.Deliver? {
        RosterInOrder(ca, cb, base, s, ev, at, m, since);
      } else if ev.packet.body.key != Line(ca, cb) {
        ForeignInOrder(ca, cb, base, s, ev, at, since);
      }
    case Carry(index, _, _, _, _) =>
      if index < |s.sealed| {
        CarryInOrder(ca, cb, base, s, step, at, since);
      }
  }

  /** While every roster lists the sender unchanged, what the receiver accepts
      from it is an in-order, duplicate-free subsequence of what the sender
      sealed, unaltered, whatever else happens at either member. */
  lemma {:induction false} AcceptedInOrder(ca: Config, cb: Config, base: nat, s: System, steps: seq<Step>, at: Addr)
    requires Inv(ca, cb, base, s) && ca.zone == cb.zone
    requires at in s.b.peers && s.b.peers[at].member.key == ca.key && Listed(steps, s.b.peers[at].member)
    ensures SameEntry(s, Run(ca, cb, s, steps), at)
    ensures InOrder(base, Run(ca, cb, s, steps), at, |s.accepted|)
    decreases |steps|
  {
    if steps != [] {
      var front, last := steps[..|steps| - 1], steps[|steps| - 1];
      AcceptedInOrder(ca, cb, base, s, front, at);
      RunKeeps(ca, cb, base, s, front);
      assert EntryOk(cb, at, s.b.peers[at]);
      StepInOrder(ca, cb, base, Run(ca, cb, s, front), last, at, s.b.peers[at].member, |s.accepted|);
    }
  }

  // ------------------------------------------------------------- round trips

  /** Each member's roster has the other's current registration. */
  ghost predicate Paired(ca: Config, a: State, cb: Config, b: State) {
    && ca.zone == cb.zone
    && cb.self in a.peers && a.peers[cb.self].send == Line(ca, cb) && a.peers[cb.self].mac == cb.mac
    && ca.self in b.peers && b.peers[ca.self].receive == Line(ca, cb)
    && b.peers[ca.self].session == ca.session && b.peers[ca.self].mac == ca.mac
    && ca.mac in b.macs && b.macs[ca.mac] == ca.self
  }

  /** What a sealed message opens to, and exactly when it opens. */
  lemma OpenAfterSeal(ca: Config, a: State, cb: Config, b: State, prefix: seq<byte>, payload: seq<byte>, check: Check)
    requires Paired(ca, a, cb, b) && Seal(ca, a, Line(ca, cb), prefix, payload).Some?
    ensures var p := Seal(ca, a, Line(ca, cb), prefix, payload).value.1;
            var o := Open(b, ca.self, true, p, check);
            && (o.1.Some? <==> b.peers[ca.self].last <= a.next && Passes(check, payload))
            && (o.1.Some? ==> o.1.value == payload && o.0.peers[ca.self].last == a.next + 1)
  {
    SealStamps(ca, a, Line(ca, cb), prefix, payload);
  }

  lemma StreamFields(id: Uint32, n: nat)
    ensures var h := StreamPrefix(id) + BE(n, 8);
            |h| == 14 && h[0..2] == [2, 4] && FromBE(h[2..6]) == id
  {
    var h := StreamPrefix(id) + BE(n, 8);
    assert h[2..6] == BE(id, 4);
    Pow256Values();
    BERoundTrip(id, 4);
  }

  /** Stream data arrives with its stream and payload exactly when it is newer
      than everything accepted before. */
  lemma StreamRoundTrip(ca: Config, a: State, cb: Config, b: State, id: Uint32, payload: seq<byte>)
    requires Paired(ca, a, cb, b) && SealStreamData(ca, a, cb.self, true, id, payload).Some?
    ensures var p := SealStreamData(ca, a, cb.self, true, id, payload).value.1;
            OpenStreamData(b, ca.self, true, p).1 ==
              if b.peers[ca.self].last <= a.next then Some((id, payload)) else None
  {
    OpenAfterSeal(ca, a, cb, b, StreamPrefix(id), payload, StreamCheck);
    StreamFields(id, a.next + 1);
  }

  lemma DatagramFields(src: Addr, dst: Addr, srcPort: Port, dstPort: Port, n: nat)
    ensures var h := DatagramPrefix(src, dst, srcPort, dstPort) + BE(n, 8);
            && |h| == 21 && h[0] == 3 && FromBE(h[1..5]) == src && FromBE(h[5..9]) == dst
            && U16(h[9], h[10]) == srcPort && U16(h[11], h[12]) == dstPort
  {
    var h := DatagramPrefix(src, dst, srcPort, dstPort) + BE(n, 8);
    assert h[1..5] == BE(src, 4) && h[5..9] == BE(dst, 4);
    assert h[9..11] == BE16(srcPort) && h[11..13] == BE16(dstPort);
    assert h[9] == h[9..11][0] && h[10] == h[9..11][1] && h[11] == h[11..13][0] && h[12] == h[11..13][1];
    Pow256Values();
    BERoundTrip(src, 4);
    BERoundTrip(dst, 4);
  }

  /** A datagram arrives with its addresses, ports and payload. */
  lemma DatagramRoundTrip(ca: Config, a: State, cb: Config, b: State, d: Datagram)
    requires Paired(ca, a, cb, b) && d.src == ca.self && d.dst == cb.self && SealDatagram(ca, a, d, true).Some?
    ensures var p := SealDatagram(ca, a, d, true).value.1;
            OpenDatagram(cb, b, p, true).1 == if b.peers[ca.self].last <= a.next then Some(d) else None
  {
    OpenAfterSeal(ca, a, cb, b, DatagramPrefix(ca.self, d.dst, d.srcPort, d.dstPort), d.payload, Anything);
    DatagramFields(ca.self, d.dst, d.srcPort, d.dstPort, a.next + 1);
  }

  ghost predicate IsCopy(cfg: Config, st: State, to: Addr, i: nat, prefix: seq<byte>, payload: seq<byte>, p: Packet) {
    to in st.peers && p == Stamp(cfg, st.peers[to].send, st.next + 1 + i, prefix, payload)
  }

  /** Copies in target order, each under its own number and peer key. */
  ghost predicate CopiesFor(cfg: Config, st: State, targets: seq<Addr>, prefix: seq<byte>, payload: seq<byte>, sealed: seq<Packet>) {
    |sealed| == |targets| && forall i | 0 <= i < |sealed| :: IsCopy(cfg, st, targets[i], i, prefix, payload, sealed[i])
  }

  lemma CopiesMore(cfg: Config, st: State, front: seq<Addr>, last: Addr, prefix: seq<byte>, payload: seq<byte>,
                   sealed: seq<Packet>, p: Packet)
    requires CopiesFor(cfg, st, front, prefix, payload, sealed) && IsCopy(cfg, st, last, |front|, prefix, payload, p)
    ensures CopiesFor(cfg, st, front + [last], prefix, payload, sealed + [p])
  {
  }

  lemma SealEachSplit(cfg: Config, st: State, front: seq<Addr>, last: Addr, prefix: seq<byte>, payload: seq<byte>)
    requires last in st.peers && forall i | 0 <= i < |front| :: front[i] in st.peers
    ensures var f, g := SealEach(cfg, st, front, prefix, payload), SealEach(cfg, st, front + [last], prefix, payload);
            var s := Seal(cfg, f.state, st.peers[last].send, prefix, payload);
            g == if !f.ok then f else if s.None? then f.(ok := false) else Flooded(s.value.0, f.sealed + [s.value.1], true)
  {
    assert (front + [last])[..|front|] == front;
  }

  /** A flood seals one copy for every target, exactly when the counter has room. */
  lemma {:induction false} SealEachCopies(cfg: Config, st: State, targets: seq<Addr>, prefix: seq<byte>, payload: seq<byte>)
    requires forall i | 0 <= i < |targets| :: targets[i] in st.peers
    ensures var f := SealEach(cfg, st, targets, prefix, payload);
            && (f.ok <==> st.next + |targets| <= MAX_SEQUENCE)
            && (f.ok ==> f.state.next == st.next + |targets| && CopiesFor(cfg, st, targets, prefix, payload, f.sealed))
    decreases |targets|
  {
    if targets != [] {
      var front, last := targets[..|targets| - 1], targets[|targets| - 1];
      assert targets == front + [last];
      SealEachCopies(cfg, st, front, prefix, payload);
      SealEachSplit(cfg, st, front, last, prefix, payload);
      var f := SealEach(cfg, st, front, prefix, payload);
      if f.ok && f.state.next < MAX_SEQUENCE {
        var p := Stamp(cfg, st.peers[last].send, f.state.next + 1, prefix, payload);
        CopiesMore(cfg, st, front, last, prefix, payload, f.sealed, p);
      }
    }
  }

  lemma FrameFields(src: Mac, dst: Mac, n: nat)
    ensures var h := FramePrefix(src, dst) + BE(n, 8);
            |h| == 22 && h[0..2] == [1, 2] && h[2..8] == src && h[8..14] == dst
  {
  }

  /** The message numbered n opens to the frame exactly when it is newer than
      everything accepted from its sender. */
  ghost predicate FrameArrives(cb: Config, b: State, from: Addr, p: Packet, frame: seq<byte>, n: nat) {
    from in b.peers && OpenFrame(cb, b, p, true).1 == if b.peers[from].last < n then Some(frame) else None
  }

  lemma FrameOpened(cb: Config, b: State, p: Packet, src: Mac, dst: Mac)
    requires |p.header| == 22 && p.header[0..2] == [1, 2] && p.header[2..8] == src && p.header[8..14] == dst
    requires FrameLength(p.body.payload) && src in b.macs && (dst == cb.mac || Group(dst))
    ensures OpenFrame(cb, b, p, true) == Open(b, b.macs[src], true, p, FrameCheck(src, dst))
  {
  }

  lemma CopyOpens(ca: Config, a: State, cb: Config, b: State, frame: seq<byte>, dst: Mac, n: nat)
    requires Paired(ca, a, cb, b) && 0 < n <= MAX_SEQUENCE && Passes(FrameCheck(ca.mac, dst), frame)
    requires dst == cb.mac || Group(dst)
    ensures FrameArrives(cb, b, ca.self, Stamp(ca, Line(ca, cb), n, FramePrefix(ca.mac, dst), frame), frame, n)
  {
    OpenAfterSeal(ca, a.(next := n - 1), cb, b, FramePrefix(ca.mac, dst), frame, FrameCheck(ca.mac, dst));
    FrameFields(ca.mac, dst, n);
    FrameOpened(cb, b, Stamp(ca, Line(ca, cb), n, FramePrefix(ca.mac, dst), frame), ca.mac, dst);
  }

  /** The place of the copy for the member with this MAC among the targets. */
  lemma Targeted(cfg: Config, st: State, frame: seq<byte>, order: seq<Addr>, to: Addr) returns (i: nat)
    requires IndexOk(st.peers, st.macs) && Lists(order, st.peers) && to in st.peers
    requires FrameTargets(cfg, st, frame, order).Some? && (frame[0..6] == st.peers[to].mac || Group(frame[0..6]))
    ensures i < |FrameTargets(cfg, st, frame, order).value| && FrameTargets(cfg, st, frame, order).value[i] == to
    ensures FrameLength(frame) && frame[6..12] == cfg.mac
  {
    i := 0;
    if Group(frame[0..6]) {
      i :| 0 <= i < |order| && order[i] == to;
    }
  }

  /** What a sealed frame consists of. */
  lemma FrameCopies(cfg: Config, st: State, frame: seq<byte>, order: seq<Addr>)
    requires Lists(order, st.peers) && Indexed(st) && SealFrame(cfg, st, frame, order).ok
    ensures var targets := FrameTargets(cfg, st, frame, order);
            && targets.Some? && FrameLength(frame) && frame[6..12] == cfg.mac && st.next + |targets.value| <= MAX_SEQUENCE
            && CopiesFor(cfg, st, targets.value, FramePrefix(cfg.mac, frame[0..6]), frame, SealFrame(cfg, st, frame, order).sealed)
  {
    SealEachCopies(cfg, st, FrameTargets(cfg, st, frame, order).value, FramePrefix(cfg.mac, frame[0..6]), frame);
  }

  lemma CopySealed(cfg: Config, st: State, frame: seq<byte>, order: seq<Addr>, to: Addr) returns (i: nat)
    requires IndexOk(st.peers, st.macs) && Lists(order, st.peers) && Indexed(st) && to in st.peers
    requires SealFrame(cfg, st, frame, order).ok && (frame[0..6] == st.peers[to].mac || Group(frame[0..6]))
    ensures Passes(FrameCheck(cfg.mac, frame[0..6]), frame) && st.next + 1 + i <= MAX_SEQUENCE
    ensures i < |SealFrame(cfg, st, frame, order).sealed|
    ensures IsCopy(cfg, st, to, i, FramePrefix(cfg.mac, frame[0..6]), frame, SealFrame(cfg, st, frame, order).sealed[i])
  {
    FrameCopies(cfg, st, frame, order);
    i := Targeted(cfg, st, frame, order, to);
  }

  lemma SameKeySamePeer(cfg: Config, st: State, x: Addr, y: Addr)
    requires StateOk(cfg, st) && x in st.peers && y in st.peers && st.peers[x].send == st.peers[y].send
    ensures x == y
  {
    assert EntryOk(cfg, x, st.peers[x]) && EntryOk(cfg, y, st.peers[y]);
    assert x != y ==> Distinct(st.peers[x], st.peers[y]);
  }

  lemma TargetsApart(cfg: Config, st: State, frame: seq<byte>, order: seq<Addr>, i: nat, j: nat)
    requires Lists(order, st.peers) && FrameTargets(cfg, st, frame, order).Some?
    requires var ts := FrameTargets(cfg, st, frame, order).value; i < |ts| && j < |ts| && ts[i] == ts[j]
    ensures i == j
  {
  }

  lemma CopyKeys(cfg: Config, st: State, frame: seq<byte>, order: seq<Addr>, i: nat)
    requires Lists(order, st.peers) && Indexed(st) && SealFrame(cfg, st, frame, order).ok
    requires i < |SealFrame(cfg, st, frame, order).sealed|
    ensures var targets := FrameTargets(cfg, st, frame, order);
            && targets.Some? && |targets.value| == |SealFrame(cfg, st, frame, order).sealed| && targets.value[i] in st.peers
            && SealFrame(cfg, st, frame, order).sealed[i].body.key == st.peers[targets.value[i]].send
  {
    FrameCopies(cfg, st, frame, order);
    var targets := FrameTargets(cfg, st, frame, order).value;
    assert IsCopy(cfg, st, targets[i], i, FramePrefix(cfg.mac, frame[0..6]), frame, SealFrame(cfg, st, frame, order).sealed[i]);
  }

  /** No two copies of a frame are sealed under the same key, so each member
      gets at most one. */
  lemma OnlyCopy(cfg: Config, st: State, frame: seq<byte>, order: seq<Addr>, i: nat, j: nat)
    requires StateOk(cfg, st) && Lists(order, st.peers) && Indexed(st) && SealFrame(cfg, st, frame, order).ok
    requires i < |SealFrame(cfg, st, frame, order).sealed| && j < |SealFrame(cfg, st, frame, order).sealed|
    requires SealFrame(cfg, st, frame, order).sealed[i].body.key == SealFrame(cfg, st, frame, order).sealed[j].body.key
    ensures i == j
  {
    CopyKeys(cfg, st, frame, order, i);
    CopyKeys(cfg, st, frame, order, j);
    var targets := FrameTargets(cfg, st, frame, order).value;
    SameKeySamePeer(cfg, st, targets[i], targets[j]);
    TargetsApart(cfg, st, frame, order, i, j);
  }

  /** A frame for b's MAC, or for a group, is sealed for b, and that copy (the
      only one, by OnlyCopy) opens to the frame exactly when it is newer than
      everything accepted. */
  lemma FrameRoundTrip(ca: Config, a: State, cb: Config, b: State, frame: seq<byte>, order: seq<Addr>)
    returns (i: nat)
    requires Paired(ca, a, cb, b) && IndexOk(a.peers, a.macs) && Lists(order, a.peers) && Indexed(a)
    requires SealFrame(ca, a, frame, order).ok && (frame[0..6] == cb.mac || Group(frame[0..6]))
    ensures var f := SealFrame(ca, a, frame, order);
            && i < |f.sealed| && f.sealed[i].body.key == Line(ca, cb)
            && FrameArrives(cb, b, ca.self, f.sealed[i], frame, a.next + 1 + i)
  {
    i := CopySealed(ca, a, frame, order, cb.self);
    CopyOpens(ca, a, cb, b, frame, frame[0..6], a.next + 1 + i);
  }
}
