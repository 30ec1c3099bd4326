/** Destination access control, after linksocks/access.go. Textual parsing of
    addresses and name resolution are left to the caller: an address is its 4
    or 16 bytes and a resolution is a list of addresses or a failure. */
module Access {
  import opened Bytes

  type IP = s: seq<byte> | |s| == 4 || |s| == 16 witness [0, 0, 0, 0]
  type IP16 = s: seq<byte> | |s| == 16 witness seq(16, _ => 0)

  const V4_IN_V6: seq<byte> := [0, 0, 0, 0, 0, 0, 0, 0, 0, 0, 0xFF, 0xFF]

  function To4(ip: IP): (r: Option<seq<byte>>)
    ensures r.Some? ==> |r.value| == 4
  {
    if |ip| == 4 then Some(ip) else if ip[..12] == V4_IN_V6 then Some(ip[12..]) else None
  }

  function To16(ip: IP): IP16 { if |ip| == 4 then V4_IN_V6 + ip else ip }

  // ------------------------------------------------------------- bitwise

  function AndBits(a: nat, b: nat, n: nat): (r: nat)
    ensures r < Pow2(n)
  {
    if n == 0 then 0 else 2 * AndBits(a / 2, b / 2, n - 1) + if a % 2 == 1 && b % 2 == 1 then 1 else 0
  }

  function OrBits(a: nat, b: nat, n: nat): (r: nat)
    ensures r < Pow2(n)
  {
    if n == 0 then 0 else 2 * OrBits(a / 2, b / 2, n - 1) + if a % 2 == 1 || b % 2 == 1 then 1 else 0
  }

  function And(a: byte, b: byte): byte {
    Pow2Values();
    AndBits(a, b, 8)
  }

  function Or(a: byte, b: byte): byte {
    Pow2Values();
    OrBits(a, b, 8)
  }

  function Not(a: byte): byte { 255 - a }

  /** A mask byte with `ones` leading one bits. */
  function MaskByte(ones: nat): byte
    requires ones <= 8
  {
    Pow2Values();
    256 - Pow2(8 - ones)
  }

  /** How many of the first p bits fall into byte i. */
  function Ones(p: nat, i: nat): (r: nat)
    ensures r <= 8
  {
    if p <= 8 * i then 0 else if p >= 8 * i + 8 then 8 else p - 8 * i
  }

  function CidrMask(p: nat, n: nat): (m: seq<byte>)
    ensures |m| == n
  {
    seq(n, i requires 0 <= i < n => MaskByte(Ones(p, i)))
  }

  /** A network: its address with the host bits cleared, and its mask. */
  datatype IPNet = IPNet(ip: IP, mask: seq<byte>)

  function Network(ip: IP, p: nat): (n: IPNet)
    ensures |n.ip| == |n.mask| == |ip|
  {
    var mask := CidrMask(p, |ip|);
    IPNet(seq(|ip|, i requires 0 <= i < |ip| => And(ip[i], mask[i])), mask)
  }

  /** The last address of a network. Whatever converts to four bytes is filled
      with the first four mask bytes. */
  function NetEnd(net: IPNet): (end: IP)
    requires |net.mask| == |net.ip|
  {
    var four := To4(net.ip);
    var base := if four.Some? then four.value else net.ip;
    seq(|base|, i requires 0 <= i < |base| => Or(base[i], Not(net.mask[i])))
  }

  method IpNetEnd(net: IPNet) returns (end: IP)
    requires |net.mask| == |net.ip|
    ensures end == NetEnd(net)
  {
    var four := To4(net.ip);
    var base := if four.Some? then four.value else net.ip;
    var out := new byte[|base|];
    for i := 0 to |base|
      invariant forall k | 0 <= k < i :: out[k] == Or(base[k], Not(net.mask[k]))
    {
      out[i] := Or(base[i], Not(net.mask[i]));
    }
    assert out[..] == NetEnd(net);
    end := out[..];
  }

  // ------------------------------------------------------- ranges and rules

  datatype Range = Range(start: IP16, end: IP16)

  /** The forms an address specification can take once its text is split. */
  datatype Spec =
    | Cidr(ip: IP, prefix: nat)
    | Span(first: IP, last: IP)
    | LastOctet(first: IP, octet: int)
    | Host(ip: IP)
    | Malformed

  function ParseSpec(spec: Spec): Option<Range> {
    match spec
    case Cidr(ip, p) =>
      if p > 8 * |ip| then None
      else
        var net := Network(ip, p);
        Some(Range(To16(net.ip), To16(NetEnd(net))))
    case Span(first, last) => Some(Range(To16(first), To16(last)))
    case LastOctet(first, octet) =>
      if To4(first).None? || octet < 0 || octet > 255 then None
      else Some(Range(To16(first), To16(To4(first).value[..3] + [octet])))
    case Host(ip) => Some(Range(To16(ip), To16(ip)))
    case Malformed => None
  }

  /** Byte strings of equal length, compared as bytes.Compare does. */
  predicate AtMost(a: seq<byte>, b: seq<byte>)
    requires |a| == |b|
  {
    a == [] || a[0] < b[0] || (a[0] == b[0] && AtMost(a[1..], b[1..]))
  }

  predicate InRange(ip: IP, r: Range) { AtMost(r.start, To16(ip)) && AtMost(To16(ip), r.end) }

  datatype PortSpec = PortSpec(start: int, end: int)
  datatype AccessRule = AccessRule(addrs: seq<Spec>, ports: seq<PortSpec>)
  datatype Rule = Rule(addrs: seq<Range>, ports: seq<PortSpec>)

  predicate PortOk(p: PortSpec) { 1 <= p.start <= p.end <= 65535 }

  ghost predicate RuleOk(r: AccessRule) {
    && (forall i | 0 <= i < |r.addrs| :: ParseSpec(r.addrs[i]).Some?)
    && (forall i | 0 <= i < |r.ports| :: PortOk(r.ports[i]))
  }

  ghost predicate Compiles(r: AccessRule, c: Rule) {
    && |c.addrs| == |r.addrs| && c.ports == r.ports
    && forall i | 0 <= i < |r.addrs| :: ParseSpec(r.addrs[i]) == Some(c.addrs[i])
  }

  method CompileAddrs(specs: seq<Spec>) returns (addrs: Option<seq<Range>>)
    ensures addrs.Some? <==> forall i | 0 <= i < |specs| :: ParseSpec(specs[i]).Some?
    ensures addrs.Some? ==> |addrs.value| == |specs| && forall i | 0 <= i < |specs| :: ParseSpec(specs[i]) == Some(addrs.value[i])
  {
    var out: seq<Range> := [];
    for i := 0 to |specs|
      invariant |out| == i
      invariant forall k | 0 <= k < i :: ParseSpec(specs[k]) == Some(out[k])
    {
      var r := ParseSpec(specs[i]);
      if r.None? {
        return None;
      }
      out := out + [r.value];
    }
    return Some(out);
  }

  method CompileRule(rule: AccessRule) returns (c: Option<Rule>)
    ensures c.Some? <==> RuleOk(rule)
    ensures c.Some? ==> Compiles(rule, c.value)
  {
    var addrs := CompileAddrs(rule.addrs);
    if addrs.None? {
      return None;
    }
    var ports: seq<PortSpec> := [];
    for i := 0 to |rule.ports|
      invariant ports == rule.ports[..i]
      invariant forall k | 0 <= k < i :: PortOk(rule.ports[k])
    {
      var p := rule.ports[i];
      if p.start < 1 || p.end > 65535 || p.end < p.start {
        return None;
      }
      ports := ports + [p];
    }
    return Some(Rule(addrs.value, ports));
  }

  /** The rules are compiled in order; the first bad entry refuses them all. */
  method NewAccessControl(rules: seq<AccessRule>) returns (ac: Option<seq<Rule>>)
    ensures ac.Some? <==> forall i | 0 <= i < |rules| :: RuleOk(rules[i])
    ensures ac.Some? ==> |ac.value| == |rules| && forall i | 0 <= i < |rules| :: Compiles(rules[i], ac.value[i])
  {
    var out: seq<Rule> := [];
    for i := 0 to |rules|
      invariant |out| == i
      invariant forall k | 0 <= k < i :: RuleOk(rules[k]) && Compiles(rules[k], out[k])
    {
      var c := CompileRule(rules[i]);
      if c.None? {
        return None;
      }
      out := out + [c.value];
    }
    return Some(out);
  }

  ghost predicate PortMatches(r: Rule, port: int) {
    r.ports == [] || exists i | 0 <= i < |r.ports| :: r.ports[i].start <= port <= r.ports[i].end
  }

  ghost predicate AddressMatches(r: Rule, ip: IP) {
    r.addrs == [] || exists i | 0 <= i < |r.addrs| :: InRange(ip, r.addrs[i])
  }

  /** Some one rule matches the port and some resolved address. */
  ghost predicate Permitted(rules: seq<Rule>, ips: seq<IP>, port: int) {
    exists i, j | 0 <= i < |rules| && 0 <= j < |ips| :: PortMatches(rules[i], port) && AddressMatches(rules[i], ips[j])
  }

  method PortInRanges(ranges: seq<PortSpec>, port: int) returns (r: bool)
    ensures r <==> exists i | 0 <= i < |ranges| :: ranges[i].start <= port <= ranges[i].end
  {
    for i := 0 to |ranges|
      invariant forall k | 0 <= k < i :: !(ranges[k].start <= port <= ranges[k].end)
    {
      if port >= ranges[i].start && port <= ranges[i].end {
        return true;
      }
    }
    return false;
  }

  method RuleMatches(rule: Rule, ips: seq<IP>) returns (r: bool)
    ensures r <==> exists j | 0 <= j < |ips| :: AddressMatches(rule, ips[j])
  {
    for j := 0 to |ips|
      invariant forall k | 0 <= k < j :: !AddressMatches(rule, ips[k])
    {
      if |rule.addrs| == 0 {
        assert AddressMatches(rule, ips[j]);
        return true;
      }
      for i := 0 to |rule.addrs|
        invariant forall k | 0 <= k < i :: !InRange(ips[j], rule.addrs[k])
      {
        if InRange(ips[j], rule.addrs[i]) {
          assert AddressMatches(rule, ips[j]);
          return true;
        }
      }
    }
    return false;
  }

  /** No rules allow everything; otherwise a destination that does not resolve
      is refused and any other needs one rule for both port and address. */
  method Allow(rules: seq<Rule>, resolved: Option<seq<IP>>, port: int) returns (r: bool)
    ensures r <==> rules == [] || (resolved.Some? && Permitted(rules, resolved.value, port))
  {
    if |rules| == 0 {
      return true;
    }
    if resolved.None? {
      return false;
    }
    var ips := resolved.value;
    for i := 0 to |rules|
      invariant forall k, j | 0 <= k < i && 0 <= j < |ips| :: !(PortMatches(rules[k], port) && AddressMatches(rules[k], ips[j]))
    {
      var portOk := true;
      if |rules[i].ports| > 0 {
        portOk := PortInRanges(rules[i].ports, port);
      }
      if portOk {
        var matches := RuleMatches(rules[i], ips);
        if matches {
          return true;
        }
      }
    }
    return false;
  }
}
