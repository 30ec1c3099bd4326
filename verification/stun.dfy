/** STUN binding messages, after linksocks/stun.go and sections 6, 15, 15.1 and
    15.2 of RFC 5389. Addresses are byte sequences; printing them is not
    modelled. */
module Stun {
  import opened Bytes

  type TxID = s: seq<byte> | |s| == 12 witness seq(12, _ => 0)

  const COOKIE: seq<byte> := [0x21, 0x12, 0xA4, 0x42]
  const MAPPED: nat := 0x0001
  const XOR_MAPPED: nat := 0x0020

  datatype Result = Mapped(ip: seq<byte>, port: nat) | Error

  // -------------------------------------------------------- exclusive or

  function XorBits(a: nat, b: nat, n: nat): (r: nat)
    ensures r < Pow2(n)
  {
    if n == 0 then 0 else 2 * XorBits(a / 2, b / 2, n - 1) + if a % 2 == b % 2 then 0 else 1
  }

  function Xor(a: byte, b: byte): byte {
    Pow2Values();
    XorBits(a, b, 8)
  }

  /** Bit j of the result is set exactly where the two bits differ. */
  lemma {:induction false} XorBitAt(a: nat, b: nat, n: nat, j: nat)
    requires j < n
    ensures Shr(XorBits(a, b, n), j) % 2 == if Shr(a, j) % 2 == Shr(b, j) % 2 then 0 else 1
  {
    if j > 0 {
      XorBitAt(a / 2, b / 2, n - 1, j - 1);
      assert XorBits(a, b, n) / 2 == XorBits(a / 2, b / 2, n - 1);
    }
  }

  /** Exclusive or, bit by bit. */
  lemma XorAt(a: byte, b: byte, j: nat)
    requires j < 8
    ensures Shr(Xor(a, b), j) % 2 == if Shr(a, j) % 2 == Shr(b, j) % 2 then 0 else 1
  {
    XorBitAt(a, b, 8, j);
  }

  lemma {:induction false} XorBitsTwice(a: nat, b: nat, n: nat)
    requires a < Pow2(n)
    ensures XorBits(XorBits(a, b, n), b, n) == a
  {
    if n > 0 {
      var x := XorBits(a / 2, b / 2, n - 1);
      var r := XorBits(a, b, n);
      assert r / 2 == x;
      assert r % 2 == if a % 2 == b % 2 then 0 else 1;
      XorBitsTwice(a / 2, b / 2, n - 1);
    }
  }

  lemma XorTwice(a: byte, b: byte)
    ensures Xor(Xor(a, b), b) == a
  {
    Pow2Values();
    XorBitsTwice(a, b, 8);
  }

  function XorAll(a: seq<byte>, mask: seq<byte>): (r: seq<byte>)
    requires |a| <= |mask|
    ensures |r| == |a|
  {
    seq(|a|, i requires 0 <= i < |a| => Xor(a[i], mask[i]))
  }

  lemma XorAllTwice(a: seq<byte>, mask: seq<byte>)
    requires |a| <= |mask|
    ensures XorAll(XorAll(a, mask), mask) == a
  {
    forall i | 0 <= i < |a| ensures XorAll(XorAll(a, mask), mask)[i] == a[i] { XorTwice(a[i], mask[i]); }
  }

  // ------------------------------------------------------------- parsing

  function AddressLength(family: byte): nat { if family == 1 then 4 else if family == 2 then 16 else 0 }

  function PlainAddress(av: seq<byte>): Result {
    if |av| < 4 then Error
    else
      var n := AddressLength(av[1]);
      if n == 0 || |av| < 4 + n then Error else Mapped(av[4..4 + n], U16(av[2], av[3]))
  }

  function XorAddress(av: seq<byte>, tx: TxID): Result {
    if |av| < 4 then Error
    else
      var n := AddressLength(av[1]);
      if n == 0 || |av| < 4 + n then Error
      else Mapped(XorAll(av[4..4 + n], COOKIE + tx), U16(Xor(av[2], 0x21), Xor(av[3], 0x12)))
  }

  function Padding(n: nat): (p: nat)
    ensures p < 4 && (n + p) % 4 == 0
  {
    (4 - n % 4) % 4
  }

  /** The first mapped address in a list of attributes. */
  function ParseAttributes(attrs: seq<byte>, tx: TxID): Result
    decreases |attrs|
  {
    if |attrs| < 4 then Error
    else
      var kind, n := U16(attrs[0], attrs[1]), U16(attrs[2], attrs[3]);
      if |attrs| < 4 + n + Padding(n) then Error
      else if kind == XOR_MAPPED then XorAddress(attrs[4..4 + n], tx)
      else if kind == MAPPED then PlainAddress(attrs[4..4 + n])
      else ParseAttributes(attrs[4 + n + Padding(n)..], tx)
  }

  function Parse(b: seq<byte>, tx: TxID): Result {
    if |b| < 20 || U16(b[0], b[1]) != 0x0101 || |b| < 20 + U16(b[2], b[3]) then Error
    else if b[4..8] != COOKIE || b[8..20] != tx then Error
    else ParseAttributes(b[20..20 + U16(b[2], b[3])], tx)
  }

  method EqualBytes(a: seq<byte>, b: seq<byte>) returns (r: bool)
    ensures r <==> a == b
  {
    if |a| != |b| {
      return false;
    }
    for i := 0 to |a|
      invariant a[..i] == b[..i]
    {
      if a[i] != b[i] {
        return false;
      }
    }
    return true;
  }

  method ParseXorMappedAddress(av: seq<byte>, tx: TxID) returns (r: Result)
    ensures r == XorAddress(av, tx)
  {
    if |av| < 4 {
      return Error;
    }
    var port := U16(Xor(av[2], 0x21), Xor(av[3], 0x12));
    if av[1] == 1 {
      if |av| < 8 {
        return Error;
      }
      var ip := [Xor(av[4], 0x21), Xor(av[5], 0x12), Xor(av[6], 0xA4), Xor(av[7], 0x42)];
      assert ip == XorAll(av[4..8], COOKIE + tx);
      return Mapped(ip, port);
    } else if av[1] == 2 {
      if |av| < 20 {
        return Error;
      }
      var mask := COOKIE + tx;
      var out := new byte[16];
      for i := 0 to 16
        invariant forall k | 0 <= k < i :: out[k] == Xor(av[4 + k], mask[k])
      {
        out[i] := Xor(av[4 + i], mask[i]);
      }
      assert out[..] == XorAll(av[4..20], mask);
      return Mapped(out[..], port);
    }
    return Error;
  }

  /** The attribute loop advances through the message and stops at the first
      mapped address; it stays inside its input on every input. */
  method ParseStunBindingResponse(b: seq<byte>, tx: TxID) returns (r: Result)
    ensures r == Parse(b, tx)
  {
    if |b| < 20 || U16(b[0], b[1]) != 0x0101 {
      return Error;
    }
    var size := U16(b[2], b[3]);
    if |b| < 20 + size || b[4..8] != COOKIE {
      return Error;
    }
    var same := EqualBytes(b[8..20], tx);
    if !same {
      return Error;
    }
    var attrs := b[20..20 + size];
    while |attrs| >= 4
      invariant ParseAttributes(attrs, tx) == Parse(b, tx)
      decreases |attrs|
    {
      var kind, n := U16(attrs[0], attrs[1]), U16(attrs[2], attrs[3]);
      var pad := Padding(n);
      if |attrs| < 4 + n {
        return Error;
      }
      var value := attrs[4..4 + n];
      if |attrs| < 4 + n + pad {
        return Error;
      }
      attrs := attrs[4 + n + pad..];
      if kind == XOR_MAPPED {
        r := ParseXorMappedAddress(value, tx);
        return;
      } else if kind == MAPPED {
        return PlainAddress(value);
      }
    }
    return Error;
  }

  // ------------------------------------------------ messages as RFC 5389 has them

  datatype Attribute = Attribute(kind: nat, value: seq<byte>, pad: seq<byte>)

  ghost predicate WellFormed(a: Attribute) {
    a.kind < 0x1_0000 && |a.value| < 0x1_0000 && |a.pad| == Padding(|a.value|)
  }

  ghost predicate Other(a: Attribute) { WellFormed(a) && a.kind != 0x0001 && a.kind != 0x0020 }

  ghost predicate OnlyOthers(s: seq<Attribute>) { forall i | 0 <= i < |s| :: Other(s[i]) }

  function Encode(a: Attribute): seq<byte> { BE16(a.kind) + BE16(|a.value|) + a.value + a.pad }

  function EncodeAll(s: seq<Attribute>): seq<byte> {
    if s == [] then [] else Encode(s[0]) + EncodeAll(s[1..])
  }

  /** The value of an XOR-MAPPED-ADDRESS attribute. */
  function XorValue(ip: seq<byte>, port: nat, tx: TxID): seq<byte>
    requires |ip| <= 16
  {
    [0, if |ip| == 4 then 1 else 2] + XorAll(BE16(port), [0x21, 0x12]) + XorAll(ip, [0x21, 0x12, 0xA4, 0x42] + tx)
  }

  function PlainValue(ip: seq<byte>, port: nat): seq<byte> { [0, if |ip| == 4 then 1 else 2] + BE16(port) + ip }

  /** A success response whose attributes take `body`; `extra` follows the message. */
  function Response(tx: TxID, body: seq<byte>, extra: seq<byte>): seq<byte> {
    [0x01, 0x01] + BE16(|body|) + [0x21, 0x12, 0xA4, 0x42] + tx + body + extra
  }

  function Request(tx: TxID): seq<byte> { [0x00, 0x01] + [0, 0] + [0x21, 0x12, 0xA4, 0x42] + tx }

  function TxOf(b: seq<byte>): Option<seq<byte>> {
    if |b| < 20 || b[4..8] != COOKIE then None else Some(b[8..20])
  }

  // ------------------------------------------------------------------- laws

  /** How an encoded attribute in front of `rest` looks to the parser. */
  lemma AttributeAhead(a: Attribute, rest: seq<byte>)
    requires WellFormed(a)
    ensures var s := Encode(a) + rest; var n := |a.value|;
            && |s| == 4 + n + Padding(n) + |rest|
            && U16(s[0], s[1]) == a.kind && U16(s[2], s[3]) == n
            && s[4..4 + n] == a.value && s[4 + n + Padding(n)..] == rest
  {
    var s := Encode(a) + rest;
    var k, l := BE16(a.kind), BE16(|a.value|);
    assert s == k + l + a.value + a.pad + rest;
    assert s[0] == k[0] && s[1] == k[1] && s[2] == l[0] && s[3] == l[1];
  }

  lemma {:induction false} SkipsOthers(others: seq<Attribute>, rest: seq<byte>, tx: TxID)
    requires OnlyOthers(others)
    ensures ParseAttributes(EncodeAll(others) + rest, tx) == ParseAttributes(rest, tx)
  {
    if others != [] {
      var tail := EncodeAll(others[1..]) + rest;
      assert EncodeAll(others) + rest == Encode(others[0]) + tail;
      AttributeAhead(others[0], tail);
      SkipsOthers(others[1..], rest, tx);
    } else {
      assert [] + rest == rest;
    }
  }

  lemma ResponseBody(tx: TxID, body: seq<byte>, extra: seq<byte>)
    requires |body| < 0x1_0000
    ensures Parse(Response(tx, body, extra), tx) == ParseAttributes(body, tx)
  {
    var b, size := Response(tx, body, extra), BE16(|body|);
    assert b[2] == size[0] && b[3] == size[1];
    assert b[4..8] == COOKIE;
    assert b[8..20] == tx;
    assert b[20..20 + |body|] == body;
  }

  lemma XorValueBack(ip: seq<byte>, port: nat, tx: TxID)
    requires (|ip| == 4 || |ip| == 16) && port < 0x1_0000
    ensures XorAddress(XorValue(ip, port, tx), tx) == Mapped(ip, port)
  {
    var av, p := XorValue(ip, port, tx), BE16(port);
    assert av[2] == Xor(p[0], 0x21) && av[3] == Xor(p[1], 0x12);
    XorTwice(p[0], 0x21);
    XorTwice(p[1], 0x12);
    assert av[4..4 + |ip|] == XorAll(ip, COOKIE + tx);
    XorAllTwice(ip, COOKIE + tx);
  }

  lemma Slices(s: seq<byte>, n: nat, end: nat)
    requires 4 + n <= end <= |s|
    ensures s[..2] + s[2..4] + s[4..4 + n] + s[4 + n..end] + s[end..] == s
    ensures s[..2] == [s[0], s[1]] && s[2..4] == [s[2], s[3]]
  {
  }

  /** A list long enough for its first attribute is that attribute, encoded,
      in front of the rest. */
  lemma SplitsFirst(attrs: seq<byte>, n: nat, end: nat)
    requires |attrs| >= 4 && n == U16(attrs[2], attrs[3]) && end == 4 + n + Padding(n) && |attrs| >= end
    ensures var a := Attribute(U16(attrs[0], attrs[1]), attrs[4..4 + n], attrs[4 + n..end]);
            WellFormed(a) && attrs == Encode(a) + attrs[end..]
  {
    BE16Iff(attrs[0], attrs[1], U16(attrs[0], attrs[1]));
    BE16Iff(attrs[2], attrs[3], n);
    Slices(attrs, n, end);
  }

  lemma EncodeMore(first: Attribute, tail: seq<Attribute>, rest: seq<byte>)
    ensures EncodeAll([first] + tail) + rest == Encode(first) + (EncodeAll(tail) + rest)
  {
    assert ([first] + tail)[1..] == tail;
  }

  /** Conversely an address is only ever taken from the first address attribute
      of a well-formed list. */
  lemma {:induction false} AddressHasSource(attrs: seq<byte>, tx: TxID) returns (others: seq<Attribute>, a: Attribute, rest: seq<byte>)
    requires ParseAttributes(attrs, tx).Mapped?
    ensures attrs == EncodeAll(others) + (Encode(a) + rest)
    ensures OnlyOthers(others) && WellFormed(a)
    ensures a.kind == XOR_MAPPED || a.kind == MAPPED
    ensures ParseAttributes(attrs, tx) == if a.kind == XOR_MAPPED then XorAddress(a.value, tx) else PlainAddress(a.value)
    decreases |attrs|
  {
    var first, after := FirstAttribute(attrs, tx);
    if first.kind == XOR_MAPPED || first.kind == MAPPED {
      others, a, rest := [], first, after;
      assert EncodeAll([]) + (Encode(a) + rest) == Encode(a) + rest;
    } else {
      var tail;
      tail, a, rest := AddressHasSource(after, tx);
      others := [first] + tail;
      EncodeMore(first, tail, Encode(a) + rest);
    }
  }

  /** The first attribute of a list that gives an address, and what follows. */
  lemma FirstAttribute(attrs: seq<byte>, tx: TxID) returns (first: Attribute, after: seq<byte>)
    requires ParseAttributes(attrs, tx).Mapped?
    ensures WellFormed(first) && attrs == Encode(first) + after && |after| < |attrs|
    ensures ParseAttributes(attrs, tx) ==
              if first.kind == XOR_MAPPED then XorAddress(first.value, tx)
              else if first.kind == MAPPED then PlainAddress(first.value)
              else ParseAttributes(after, tx)
  {
    var n := U16(attrs[2], attrs[3]);
    var end := 4 + n + Padding(n);
    first, after := Attribute(U16(attrs[0], attrs[1]), attrs[4..4 + n], attrs[4 + n..end]), attrs[end..];
    SplitsFirst(attrs, n, end);
  }

  /** The value of an address attribute holds this address and port; its first
      byte is reserved, and more may follow. */
  ghost predicate Holds(kind: nat, av: seq<byte>, ip: seq<byte>, port: nat, tx: TxID) {
    && (|ip| == 4 || |ip| == 16) && port < 0x1_0000 && |av| >= 4 + |ip|
    && av[1..4 + |ip|] == (if kind == 0x0020 then XorValue(ip, port, tx) else PlainValue(ip, port))[1..]
  }

  lemma AddressParts(av: seq<byte>, family: byte, port: seq<byte>, ip: seq<byte>)
    requires |port| == 2 && |av| >= 4 + |ip|
    ensures av[1..4 + |ip|] == ([0, family] + port + ip)[1..] <==> av[1] == family && av[2..4] == port && av[4..4 + |ip|] == ip
  {
    var x, y := av[1..4 + |ip|], ([0, family] + port + ip)[1..];
    assert x == [av[1]] + av[2..4] + av[4..4 + |ip|];
    assert y == [family] + port + ip;
    if x == y {
      assert x[0] == av[1] && x[1..3] == av[2..4] && x[3..] == av[4..4 + |ip|];
      assert y[0] == family && y[1..3] == port && y[3..] == ip;
    }
  }

  lemma XorSwaps(a: seq<byte>, b: seq<byte>, mask: seq<byte>)
    requires |a| == |b| <= |mask|
    ensures XorAll(a, mask) == b <==> a == XorAll(b, mask)
  {
    XorAllTwice(a, mask);
    XorAllTwice(b, mask);
  }

  lemma XorAddressIff(av: seq<byte>, ip: seq<byte>, port: nat, tx: TxID)
    ensures XorAddress(av, tx) == Mapped(ip, port) <==> Holds(XOR_MAPPED, av, ip, port, tx)
  {
    if (|ip| == 4 || |ip| == 16) && port < 0x1_0000 && |av| >= 4 + |ip| {
      var family: byte, masked := if |ip| == 4 then 1 else 2, XorAll(BE16(port), [0x21, 0x12]);
      AddressParts(av, family, masked, XorAll(ip, COOKIE + tx));
      XorSwaps(av[4..4 + |ip|], ip, COOKIE + tx);
      XorSwaps(av[2..4], BE16(port), [0x21, 0x12]);
      assert XorAll(av[2..4], [0x21, 0x12]) == [Xor(av[2], 0x21), Xor(av[3], 0x12)];
      BE16Iff(Xor(av[2], 0x21), Xor(av[3], 0x12), port);
    }
  }

  lemma PlainAddressIff(av: seq<byte>, ip: seq<byte>, port: nat, tx: TxID)
    ensures PlainAddress(av) == Mapped(ip, port) <==> Holds(MAPPED, av, ip, port, tx)
  {
    if (|ip| == 4 || |ip| == 16) && port < 0x1_0000 && |av| >= 4 + |ip| {
      var family: byte := if |ip| == 4 then 1 else 2;
      AddressParts(av, family, BE16(port), ip);
      assert av[2..4] == [av[2], av[3]];
      BE16Iff(av[2], av[3], port);
    }
  }

  /** A message with an address in it is a success response to this transaction. */
  lemma MappedIsResponse(b: seq<byte>, tx: TxID) returns (body: seq<byte>, extra: seq<byte>)
    requires Parse(b, tx).Mapped?
    ensures b == Response(tx, body, extra) && |body| < 0x1_0000 && Parse(b, tx) == ParseAttributes(body, tx)
  {
    var n := U16(b[2], b[3]);
    body, extra := b[20..20 + n], b[20 + n..];
    BE16Iff(b[2], b[3], n);
    assert b == [b[0], b[1]] + [b[2], b[3]] + b[4..8] + b[8..20] + body + extra;
  }

  /** The response to this transaction with these attributes, in this order:
      none that holds an address, one that does, anything. */
  ghost predicate Answers(b: seq<byte>, tx: TxID, others: seq<Attribute>, a: Attribute, rest: seq<byte>, extra: seq<byte>) {
    && OnlyOthers(others) && WellFormed(a) && (a.kind == 0x0020 || a.kind == 0x0001)
    && |EncodeAll(others) + (Encode(a) + rest)| < 0x1_0000
    && b == Response(tx, EncodeAll(others) + (Encode(a) + rest), extra)
  }

  lemma AnswerParses(b: seq<byte>, tx: TxID, others: seq<Attribute>, a: Attribute, rest: seq<byte>, extra: seq<byte>, ip: seq<byte>, port: nat)
    requires Answers(b, tx, others, a, rest, extra) && Holds(a.kind, a.value, ip, port, tx)
    ensures Parse(b, tx) == Mapped(ip, port)
  {
    ResponseBody(tx, EncodeAll(others) + (Encode(a) + rest), extra);
    SkipsOthers(others, Encode(a) + rest, tx);
    AttributeAhead(a, rest);
    XorAddressIff(a.value, ip, port, tx);
    PlainAddressIff(a.value, ip, port, tx);
  }

  /** However many other attributes precede it, whatever follows, the reflexive
      address of a success response is recovered. */
  lemma FindsXorMapped(tx: TxID, others: seq<Attribute>, ip: seq<byte>, port: nat, pad: seq<byte>, rest: seq<byte>, extra: seq<byte>)
    requires OnlyOthers(others)
    requires (|ip| == 4 || |ip| == 16) && port < 0x1_0000
    requires var a := Attribute(XOR_MAPPED, XorValue(ip, port, tx), pad);
             WellFormed(a) && |EncodeAll(others) + (Encode(a) + rest)| < 0x1_0000
    ensures var a := Attribute(XOR_MAPPED, XorValue(ip, port, tx), pad);
            Parse(Response(tx, EncodeAll(others) + (Encode(a) + rest), extra), tx) == Mapped(ip, port)
  {
    var a := Attribute(XOR_MAPPED, XorValue(ip, port, tx), pad);
    AnswerParses(Response(tx, EncodeAll(others) + (Encode(a) + rest), extra), tx, others, a, rest, extra, ip, port);
  }

  lemma FindsMapped(tx: TxID, others: seq<Attribute>, ip: seq<byte>, port: nat, pad: seq<byte>, rest: seq<byte>, extra: seq<byte>)
    requires OnlyOthers(others)
    requires (|ip| == 4 || |ip| == 16) && port < 0x1_0000
    requires var a := Attribute(MAPPED, PlainValue(ip, port), pad);
             WellFormed(a) && |EncodeAll(others) + (Encode(a) + rest)| < 0x1_0000
    ensures var a := Attribute(MAPPED, PlainValue(ip, port), pad);
            Parse(Response(tx, EncodeAll(others) + (Encode(a) + rest), extra), tx) == Mapped(ip, port)
  {
    var a := Attribute(MAPPED, PlainValue(ip, port), pad);
    AnswerParses(Response(tx, EncodeAll(others) + (Encode(a) + rest), extra), tx, others, a, rest, extra, ip, port);
  }

  /** Parsing gives an address and port if and only if the input is a success
      response, with the magic cookie and this very transaction, whose first
      address attribute holds them. Everything else is refused. */
  lemma ParsesIff(b: seq<byte>, tx: TxID, ip: seq<byte>, port: nat)
    ensures Parse(b, tx) == Mapped(ip, port) <==>
              exists others, a, rest, extra :: Answers(b, tx, others, a, rest, extra) && Holds(a.kind, a.value, ip, port, tx)
  {
    if Parse(b, tx) == Mapped(ip, port) {
      var body, extra := MappedIsResponse(b, tx);
      var others, a, rest := AddressHasSource(body, tx);
      XorAddressIff(a.value, ip, port, tx);
      PlainAddressIff(a.value, ip, port, tx);
      assert Answers(b, tx, others, a, rest, extra);
    } else if others, a, rest, extra :| Answers(b, tx, others, a, rest, extra) && Holds(a.kind, a.value, ip, port, tx) {
      AnswerParses(b, tx, others, a, rest, extra, ip, port);
    }
  }

  /** The transaction of a request is read back, and a request is no response. */
  lemma RequestIdentified(tx: TxID)
    ensures TxOf(Request(tx)) == Some(tx) && Parse(Request(tx), tx) == Error
  {
    assert Request(tx)[4..8] == COOKIE && Request(tx)[8..20] == tx;
  }
}
