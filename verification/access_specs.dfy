/** Which addresses an address specification means, which specifications are
    refused, and what a list of rules therefore allows. */
module AccessSpecs {
  import opened Bytes
  import opened Access
  import opened AccessLaws

  // ------------------------------------------------------ order as numbers

  lemma {:induction false} LeadingByte(b: seq<byte>)
    requires b != []
    ensures FromBE(b) == b[0] * Pow256(|b| - 1) + FromBE(b[1..])
    decreases |b|
  {
    if |b| == 1 {
      assert b[..0] == [];
    } else {
      var front := b[..|b| - 1];
      LeadingByte(front);
      assert front[1..] == b[1..][..|b| - 2];
      assert b[1..][|b| - 2] == b[|b| - 1];
      Shift(b[0], Pow256(|b| - 2), FromBE(front[1..]), b[|b| - 1]);
    }
  }

  lemma Shift(x: nat, p: nat, y: nat, z: nat)
    ensures (x * p + y) * 256 + z == x * (256 * p) + (y * 256 + z)
  {
  }

  lemma Leads(x: nat, y: nat, p: nat, r: nat, s: nat)
    requires x < y && r < p
    ensures x * p + r < y * p + s
  {
    var d := y - x;
    assert y * p == x * p + d * p;
    assert d * p >= p by {
      assert d * p == (d - 1) * p + p;
    }
  }

  /** Comparing byte strings is comparing the numbers they write. */
  lemma {:induction false} AtMostIff(a: seq<byte>, b: seq<byte>)
    requires |a| == |b|
    ensures AtMost(a, b) <==> FromBE(a) <= FromBE(b)
  {
    if a != [] {
      LeadingByte(a);
      LeadingByte(b);
      AtMostIff(a[1..], b[1..]);
      var p := Pow256(|a| - 1);
      if a[0] < b[0] {
        Leads(a[0], b[0], p, FromBE(a[1..]), FromBE(b[1..]));
      } else if b[0] < a[0] {
        Leads(b[0], a[0], p, FromBE(b[1..]), FromBE(a[1..]));
      }
    }
  }

  /** An address as a 128-bit number, IPv4 in its mapped form. */
  function Number(ip: IP): nat { FromBE(To16(ip)) }

  // ------------------------------------------------------------- the meaning

  ghost predicate WellFormed(spec: Spec) {
    match spec
    case Cidr(ip, prefix) => prefix <= 8 * |ip|
    case Span(_, _) => true
    case LastOctet(first, octet) => To4(first).Some? && 0 <= octet <= 255
    case Host(_) => true
    case Malformed => false
  }

  /** The addresses a specification accepts. A network written in 16 bytes
      inside the IPv4-mapped block shrinks to its first address; every other
      network is the addresses that share its prefix bits. */
  ghost predicate Means(spec: Spec, a: IP)
    requires WellFormed(spec)
  {
    match spec
    case Cidr(ip, prefix) =>
      if MappedNetwork(spec) then To16(a) == Low(ip, prefix) else Names(spec, To16(a))
    case Span(first, last) => Number(first) <= Number(a) <= Number(last)
    case LastOctet(first, octet) =>
      var f, x := To4(first).value, To4(a);
      x.Some? && x.value[..3] == f[..3] && f[3] <= x.value[3] <= octet
    case Host(ip) => To16(a) == To16(ip)
  }

  /** A specification is refused exactly when it is not well formed. */
  lemma ParsesIff(spec: Spec)
    ensures ParseSpec(spec).Some? <==> WellFormed(spec)
  {
  }

  lemma HostMeans(ip: IP, a: IP)
    ensures InRange(a, ParseSpec(Host(ip)).value) <==> To16(a) == To16(ip)
  {
    AtMostBoth(To16(ip), To16(a));
  }

  lemma SpanMeans(first: IP, last: IP, a: IP)
    ensures InRange(a, ParseSpec(Span(first, last)).value) <==> Number(first) <= Number(a) <= Number(last)
  {
    AtMostIff(To16(first), To16(a));
    AtMostIff(To16(a), To16(last));
  }

  lemma MappedForm(a: IP)
    ensures To4(a).Some? <==> To16(a)[..12] == V4_IN_V6
    ensures To4(a).Some? ==> To16(a) == V4_IN_V6 + To4(a).value
  {
    if |a| == 4 {
      assert (V4_IN_V6 + a)[..12] == V4_IN_V6;
    } else if a[..12] == V4_IN_V6 {
      assert a == a[..12] + a[12..];
    }
  }

  lemma OneByteOrder(x: byte, y: byte)
    ensures AtMost([x], [y]) <==> x <= y
  {
    assert [x][1..] == [] && [y][1..] == [];
  }

  lemma LastOctetMeans(first: IP, octet: int, a: IP)
    requires WellFormed(LastOctet(first, octet))
    ensures InRange(a, ParseSpec(LastOctet(first, octet)).value) <==> Means(LastOctet(first, octet), a)
  {
    var f, x := To4(first).value, To16(a);
    var pre := V4_IN_V6 + f[..3];
    MappedForm(first);
    MappedForm(a);
    assert To16(first) == pre + [f[3]] && To16(f[..3] + [octet]) == pre + [octet];
    CommonPrefix(pre, [f[3]], [octet], x);
    assert x[15..] == [x[15]];
    OneByteOrder(f[3], x[15]);
    OneByteOrder(x[15], octet);
    if To4(a).Some? {
      assert x[..15] == V4_IN_V6 + To4(a).value[..3] && x[15] == To4(a).value[3];
      SameTail(V4_IN_V6, To4(a).value[..3], f[..3]);
    } else {
      assert x[..15][..12] == x[..12] && pre[..12] == V4_IN_V6;
    }
  }

  lemma SameTail(pre: seq<byte>, s: seq<byte>, t: seq<byte>)
    ensures pre + s == pre + t <==> s == t
  {
    assert (pre + s)[|pre|..] == s && (pre + t)[|pre|..] == t;
  }

  lemma CidrMeans(spec: Spec, a: IP)
    requires spec.Cidr? && WellFormed(spec)
    ensures InRange(a, ParseSpec(spec).value) <==> Means(spec, a)
  {
    assert To16(To16(a)) == To16(a);
    if MappedNetwork(spec) {
      MappedRange(spec, To16(a));
    } else if |spec.ip| == 4 {
      FourByteRange(spec, To16(a));
    } else {
      SixteenByteRange(spec, To16(a));
    }
  }

  /** The range of a specification accepts exactly the addresses it means. */
  lemma SpecMeans(spec: Spec, a: IP)
    requires WellFormed(spec)
    ensures InRange(a, ParseSpec(spec).value) <==> Means(spec, a)
  {
    match spec
    case Cidr(_, _) => CidrMeans(spec, a);
    case Span(first, last) => SpanMeans(first, last, a);
    case LastOctet(first, octet) => LastOctetMeans(first, octet, a);
    case Host(ip) => HostMeans(ip, a);
  }

  // --------------------------------------------------------------- the rules

  ghost predicate GoodRule(r: AccessRule) {
    && (forall i | 0 <= i < |r.addrs| :: WellFormed(r.addrs[i]))
    && (forall i | 0 <= i < |r.ports| :: 1 <= r.ports[i].start <= r.ports[i].end <= 65535)
  }

  ghost predicate AnyAddress(r: AccessRule, ip: IP)
    requires GoodRule(r)
  {
    r.addrs == [] || exists i | 0 <= i < |r.addrs| :: Means(r.addrs[i], ip)
  }

  ghost predicate AnyPort(r: AccessRule, port: int) {
    r.ports == [] || exists i | 0 <= i < |r.ports| :: r.ports[i].start <= port <= r.ports[i].end
  }

  /** One rule covers both the port and one of the addresses. */
  ghost predicate Covered(rules: seq<AccessRule>, ips: seq<IP>, port: int)
    requires forall i | 0 <= i < |rules| :: GoodRule(rules[i])
  {
    exists i, j | 0 <= i < |rules| && 0 <= j < |ips| :: AnyPort(rules[i], port) && AnyAddress(rules[i], ips[j])
  }

  lemma RuleOkIff(r: AccessRule)
    ensures RuleOk(r) <==> GoodRule(r)
  {
    forall i | 0 <= i < |r.addrs|
      ensures ParseSpec(r.addrs[i]).Some? <==> WellFormed(r.addrs[i])
    {
      ParsesIff(r.addrs[i]);
    }
    assert forall i | 0 <= i < |r.ports| :: PortOk(r.ports[i]) <==> 1 <= r.ports[i].start <= r.ports[i].end <= 65535;
  }

  lemma CompiledMeans(r: AccessRule, c: Rule, ip: IP)
    requires GoodRule(r) && Compiles(r, c)
    ensures AddressMatches(c, ip) <==> AnyAddress(r, ip)
  {
    forall i | 0 <= i < |r.addrs|
      ensures InRange(ip, c.addrs[i]) <==> Means(r.addrs[i], ip)
    {
      SpecMeans(r.addrs[i], ip);
    }
  }

  lemma PermittedIff(rules: seq<AccessRule>, compiled: seq<Rule>, ips: seq<IP>, port: int)
    requires |compiled| == |rules| && forall i | 0 <= i < |rules| :: GoodRule(rules[i]) && Compiles(rules[i], compiled[i])
    ensures Permitted(compiled, ips, port) <==> Covered(rules, ips, port)
  {
    forall i, j | 0 <= i < |rules| && 0 <= j < |ips|
      ensures PortMatches(compiled[i], port) && AddressMatches(compiled[i], ips[j]) <==>
                AnyPort(rules[i], port) && AnyAddress(rules[i], ips[j])
    {
      CompiledMeans(rules[i], compiled[i], ips[j]);
    }
  }

  /** Building an access control from rules and asking it about a destination:
      None when some entry is malformed, otherwise whether the rules, as they
      are written, cover the destination. */
  method AllowedBy(rules: seq<AccessRule>, resolved: Option<seq<IP>>, port: int) returns (r: Option<bool>)
    ensures r.Some? <==> forall i | 0 <= i < |rules| :: GoodRule(rules[i])
    ensures r.Some? ==> (r.value <==> rules == [] || (resolved.Some? && Covered(rules, resolved.value, port)))
  {
    var compiled := NewAccessControl(rules);
    forall i | 0 <= i < |rules| { RuleOkIff(rules[i]); }
    if compiled.None? {
      return None;
    }
    var allowed := Allow(compiled.value, resolved, port);
    if resolved.Some? {
      PermittedIff(rules, compiled.value, resolved.value, port);
    }
    return Some(allowed);
  }
}
