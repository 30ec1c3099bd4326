/** A network range accepts exactly the addresses that share its prefix bits,
    and exactly which networks are the exception. */
module AccessLaws {
  import opened Bytes
  import opened Access

  /** Bit i of a byte, counted from the most significant. */
  function BitOf(x: byte, i: nat): nat
    requires i < 8
  {
    Shr(x, 7 - i) % 2
  }

  function Bit(s: seq<byte>, i: nat): nat
    requires i < 8 * |s|
  {
    BitOf(s[i / 8], i % 8)
  }

  ghost predicate SameBits(a: seq<byte>, b: seq<byte>, p: nat)
    requires |a| == |b| && p <= 8 * |a|
  {
    forall i | 0 <= i < p :: Bit(a, i) == Bit(b, i)
  }

  /** The addresses a network specification is meant to name. */
  ghost predicate Names(spec: Spec, a: IP16)
    requires spec.Cidr? && spec.prefix <= 8 * |spec.ip|
  {
    if |spec.ip| == 4 then a[..12] == V4_IN_V6 && SameBits(a[12..], spec.ip, spec.prefix)
    else SameBits(a, spec.ip, spec.prefix)
  }

  // ------------------------------------------------------------- one byte

  /** y shifted left by j bits, with zeros or with ones behind it. */
  function Raise(y: nat, j: nat): nat { if j == 0 then y else 2 * Raise(y, j - 1) }

  function Fill(y: nat, j: nat): nat { if j == 0 then y else 2 * Fill(y, j - 1) + 1 }

  lemma {:induction false} AndOnes(x: nat, n: nat)
    requires x < Pow2(n)
    ensures AndBits(x, Pow2(n) - 1, n) == x
  {
    if n > 0 {
      AndOnes(x / 2, n - 1);
      assert (Pow2(n) - 1) / 2 == Pow2(n - 1) - 1;
    }
  }

  lemma {:induction false} OrZero(x: nat, n: nat)
    requires x < Pow2(n)
    ensures OrBits(x, 0, n) == x
  {
    if n > 0 {
      OrZero(x / 2, n - 1);
    }
  }

  lemma {:induction false} AndHigh(x: nat, j: nat, n: nat)
    requires j <= n && x < Pow2(n)
    ensures Pow2(j) <= Pow2(n) && AndBits(x, Pow2(n) - Pow2(j), n) == Raise(Shr(x, j), j)
  {
    if j == 0 {
      AndOnes(x, n);
    } else {
      AndHigh(x / 2, j - 1, n - 1);
      var mask := Pow2(n - 1) - Pow2(j - 1);
      assert Pow2(n) - Pow2(j) == 2 * mask;
    }
  }

  lemma OrStep(r: nat, low: nat, n: nat)
    requires n > 0
    ensures OrBits(2 * r, 2 * low + 1, n) == 2 * OrBits(r, low, n - 1) + 1
  {
    assert 2 * r / 2 == r && (2 * low + 1) / 2 == low;
  }

  lemma {:induction false} OrLow(y: nat, j: nat, n: nat)
    requires j <= n && Raise(y, j) < Pow2(n)
    ensures OrBits(Raise(y, j), Pow2(j) - 1, n) == Fill(y, j)
  {
    if j == 0 {
      OrZero(y, n);
    } else {
      var r, low := Raise(y, j - 1), Pow2(j - 1) - 1;
      OrLow(y, j - 1, n - 1);
      OrStep(r, low, n);
    }
  }

  lemma {:induction false} Between(a: nat, y: nat, j: nat)
    ensures Raise(y, j) <= a <= Fill(y, j) <==> Shr(a, j) == y
  {
    if j > 0 {
      Between(a / 2, y, j - 1);
    }
  }

  /** Clearing the host bits of a byte, then filling them, spans the bytes that
      share its leading bits. */
  lemma MaskedByte(x: byte, a: byte, ones: nat)
    requires ones <= 8
    ensures var low := And(x, MaskByte(ones)); var high := Or(low, Not(MaskByte(ones)));
            low <= a <= high <==> Shr(a, 8 - ones) == Shr(x, 8 - ones)
  {
    Pow2Values();
    var j := 8 - ones;
    AndHigh(x, j, 8);
    OrLow(Shr(x, j), j, 8);
    Between(a, Shr(x, j), j);
  }

  lemma WholeByte(x: byte)
    ensures And(x, MaskByte(8)) == x && Or(x, Not(MaskByte(8))) == x
  {
    Pow2Values();
    AndHigh(x, 0, 8);
    OrLow(x, 0, 8);
  }

  lemma NoByte(x: byte)
    ensures And(x, MaskByte(0)) == 0 && Or(0, Not(MaskByte(0))) == 255
  {
    Pow2Values();
    AndHigh(x, 8, 8);
    DropAll(x, 8);
    RaiseZero(8);
    OrLow(0, 8, 8);
    FillZero(8);
  }

  lemma {:induction false} DropAll(x: nat, j: nat)
    requires x < Pow2(j)
    ensures Shr(x, j) == 0
  {
    if j > 0 {
      DropAll(x / 2, j - 1);
    }
  }

  lemma {:induction false} RaiseZero(j: nat)
    ensures Raise(0, j) == 0
  {
    if j > 0 {
      RaiseZero(j - 1);
    }
  }

  lemma {:induction false} FillZero(j: nat)
    ensures Fill(0, j) == Pow2(j) - 1
  {
    if j > 0 {
      FillZero(j - 1);
    }
  }

  ghost predicate SameTop(x: byte, y: byte, k: nat)
    requires k <= 8
  {
    forall i | 0 <= i < k :: BitOf(x, i) == BitOf(y, i)
  }

  lemma {:induction false} TopBits(x: byte, y: byte, k: nat)
    requires k <= 8
    ensures SameTop(x, y, k) <==> Shr(x, 8 - k) == Shr(y, 8 - k)
  {
    if k == 0 {
      Pow2Values();
      DropAll(x, 8);
      DropAll(y, 8);
    } else {
      TopBits(x, y, k - 1);
      ShrHalf(x, 8 - k);
      ShrHalf(y, 8 - k);
      assert SameTop(x, y, k) <==> SameTop(x, y, k - 1) && BitOf(x, k - 1) == BitOf(y, k - 1);
    }
  }

  // ------------------------------------------------------- byte sequences

  function Low(ip: seq<byte>, p: nat): (r: seq<byte>)
    ensures |r| == |ip|
  {
    seq(|ip|, i requires 0 <= i < |ip| => And(ip[i], MaskByte(Ones(p, i))))
  }

  function High(ip: seq<byte>, p: nat): (r: seq<byte>)
    ensures |r| == |ip|
  {
    seq(|ip|, i requires 0 <= i < |ip| => Or(Low(ip, p)[i], Not(MaskByte(Ones(p, i)))))
  }

  function Less8(p: nat): nat { if p < 8 then 0 else p - 8 }

  lemma Tails(ip: seq<byte>, p: nat)
    requires ip != []
    ensures Low(ip, p)[1..] == Low(ip[1..], Less8(p)) && High(ip, p)[1..] == High(ip[1..], Less8(p))
  {
    assert forall i | 0 <= i < |ip| - 1 :: Ones(p, i + 1) == Ones(Less8(p), i);
  }

  lemma SameBitsTail(a: seq<byte>, b: seq<byte>, p: nat)
    requires |a| == |b| && 8 <= p <= 8 * |a|
    ensures SameBits(a, b, p) <==> SameTop(a[0], b[0], 8) && SameBits(a[1..], b[1..], p - 8)
  {
    assert forall i | 0 <= i < 8 :: Bit(a, i) == BitOf(a[0], i) && Bit(b, i) == BitOf(b[0], i);
    assert forall i | 0 <= i < p - 8 :: Bit(a, i + 8) == Bit(a[1..], i) && Bit(b, i + 8) == Bit(b[1..], i);
    if SameTop(a[0], b[0], 8) && SameBits(a[1..], b[1..], p - 8) {
      forall i | 0 <= i < p ensures Bit(a, i) == Bit(b, i) {
        if i >= 8 {
          assert Bit(a, (i - 8) + 8) == Bit(a[1..], i - 8);
        }
      }
    }
  }

  lemma SameBitsHead(a: seq<byte>, b: seq<byte>, p: nat)
    requires |a| == |b| > 0 && p <= 8
    ensures SameBits(a, b, p) <==> SameTop(a[0], b[0], p)
  {
    assert forall i | 0 <= i < p && i < 8 :: Bit(a, i) == BitOf(a[0], i) && Bit(b, i) == BitOf(b[0], i);
  }

  /** Lying between the first and the last address of a network is sharing its
      prefix bits. */
  lemma {:induction false} BetweenIsPrefix(ip: seq<byte>, a: seq<byte>, p: nat)
    requires |ip| == |a| && p <= 8 * |ip|
    ensures AtMost(Low(ip, p), a) && AtMost(a, High(ip, p)) <==> SameBits(a, ip, p)
  {
    if ip != [] {
      Tails(ip, p);
      BetweenIsPrefix(ip[1..], a[1..], Less8(p));
      if p >= 8 {
        WholeByte(ip[0]);
        SameBitsTail(a, ip, p);
        TopBits(a[0], ip[0], 8);
      } else {
        MaskedByte(ip[0], a[0], p);
        SameBitsHead(a, ip, p);
        TopBits(a[0], ip[0], p);
        assert SameBits(a[1..], ip[1..], 0);
      }
    }
  }

  lemma {:induction false} CommonPrefix(pre: seq<byte>, s: seq<byte>, e: seq<byte>, a: seq<byte>)
    requires |s| == |e| && |a| == |pre| + |s|
    ensures AtMost(pre + s, a) && AtMost(a, pre + e) <==>
            a[..|pre|] == pre && AtMost(s, a[|pre|..]) && AtMost(a[|pre|..], e)
  {
    if pre == [] {
      assert pre + s == s && pre + e == e && a[0..] == a;
    } else {
      assert (pre + s)[1..] == pre[1..] + s && (pre + e)[1..] == pre[1..] + e;
      CommonPrefix(pre[1..], s, e, a[1..]);
      assert a[1..][|pre| - 1..] == a[|pre|..];
      assert a[..|pre|] == [a[0]] + a[1..][..|pre| - 1];
      assert pre == [pre[0]] + pre[1..];
    }
  }

  lemma {:induction false} AtMostBoth(a: seq<byte>, b: seq<byte>)
    requires |a| == |b|
    ensures AtMost(a, b) && AtMost(b, a) <==> a == b
  {
    if a != [] {
      AtMostBoth(a[1..], b[1..]);
      assert a == [a[0]] + a[1..] && b == [b[0]] + b[1..];
    }
  }

  // -------------------------------------------------------- the two cases

  lemma MaskParts(x: byte, ones: nat)
    requires ones <= 8
    ensures var y := Shr(x, 8 - ones);
            && And(x, MaskByte(ones)) == Raise(y, 8 - ones)
            && Or(And(x, MaskByte(ones)), Not(MaskByte(ones))) == Fill(y, 8 - ones)
  {
    Pow2Values();
    AndHigh(x, 8 - ones, 8);
    OrLow(Shr(x, 8 - ones), 8 - ones, 8);
  }

  lemma Parity(y: nat, j: nat)
    requires j > 0
    ensures Raise(y, j) % 2 == 0 && Fill(y, j) % 2 == 1
  {
    var r, f := Raise(y, j - 1), Fill(y, j - 1);
    assert 2 * r % 2 == 0 && (2 * f + 1) % 2 == 1;
  }

  lemma PartialByte(x: byte, ones: nat)
    requires ones < 8
    ensures And(x, MaskByte(ones)) % 2 == 0 && Or(And(x, MaskByte(ones)), Not(MaskByte(ones))) % 2 == 1
  {
    MaskParts(x, ones);
    Parity(Shr(x, 8 - ones), 8 - ones);
  }

  /** A 16-byte network that lies inside the IPv4-mapped block. */
  predicate MappedNetwork(spec: Spec)
    requires spec.Cidr?
  {
    |spec.ip| == 16 && spec.ip[..12] == V4_IN_V6 && 96 <= spec.prefix
  }

  lemma MappedIff(ip: IP, p: nat)
    requires |ip| == 16 && p <= 128
    ensures To4(Network(ip, p).ip).Some? <==> MappedNetwork(Cidr(ip, p))
  {
    var net := Network(ip, p).ip;
    if p < 96 {
      PartialByte(ip[11], Ones(p, 11));
      assert net[11] != 0xFF && net[..12][11] == net[11];
    } else {
      forall i | 0 <= i < 12 ensures net[i] == ip[i] { WholeByte(ip[i]); }
      assert net[..12] == ip[..12];
    }
  }

  lemma FourByteEnds(ip: IP, p: nat)
    requires |ip| == 4
    ensures Network(ip, p).ip == Low(ip, p) && NetEnd(Network(ip, p)) == High(ip, p)
  {
  }

  lemma FourByteRange(spec: Spec, a: IP16)
    requires spec.Cidr? && |spec.ip| == 4 && spec.prefix <= 32
    ensures InRange(a, ParseSpec(spec).value) <==> Names(spec, a)
  {
    FourByteEnds(spec.ip, spec.prefix);
    CommonPrefix(V4_IN_V6, Low(spec.ip, spec.prefix), High(spec.ip, spec.prefix), a);
    BetweenIsPrefix(spec.ip, a[12..], spec.prefix);
  }

  lemma SixteenByteEnds(ip: IP, p: nat)
    requires |ip| == 16 && p <= 128 && !MappedNetwork(Cidr(ip, p))
    ensures Network(ip, p).ip == Low(ip, p) && NetEnd(Network(ip, p)) == High(ip, p)
  {
    MappedIff(ip, p);
  }

  lemma SixteenByteRange(spec: Spec, a: IP16)
    requires spec.Cidr? && |spec.ip| == 16 && spec.prefix <= 128 && !MappedNetwork(spec)
    ensures InRange(a, ParseSpec(spec).value) <==> Names(spec, a)
  {
    SixteenByteEnds(spec.ip, spec.prefix);
    BetweenIsPrefix(spec.ip, a, spec.prefix);
  }

  /** Such a network is narrowed to its first address. */
  lemma MappedRange(spec: Spec, a: IP16)
    requires spec.Cidr? && spec.prefix <= 128 && MappedNetwork(spec)
    ensures InRange(a, ParseSpec(spec).value) <==> a == Low(spec.ip, spec.prefix)
  {
    var net := Network(spec.ip, spec.prefix);
    MappedIff(spec.ip, spec.prefix);
    var four := net.ip[12..];
    forall i | 0 <= i < 4 ensures NetEnd(net)[i] == four[i] { WholeByte(four[i]); }
    assert NetEnd(net) == four;
    assert To16(NetEnd(net)) == net.ip;
    AtMostBoth(net.ip, a);
  }

  /** An address the network names besides its first one. */
  lemma SecondAddress(ip: IP16, p: nat) returns (a: IP16)
    requires p < 128
    ensures SameBits(a, ip, p) && a != Low(ip, p)
  {
    BetweenIsPrefix(ip, ip, p);
    PartialByte(ip[15], Ones(p, 15));
    if ip != Low(ip, p) {
      a := ip;
    } else {
      a := High(ip, p);
      assert a[15] != Low(ip, p)[15];
      AtMostBoth(a, a);
      BetweenIsPrefix(ip, a, p);
    }
  }

  ghost predicate RangeExact(spec: Spec)
    requires spec.Cidr? && spec.prefix <= 8 * |spec.ip|
  {
    forall a: IP16 :: InRange(a, ParseSpec(spec).value) <==> Names(spec, a)
  }

  /** The range of a network is exact unless the network is written in 16 bytes
      inside the IPv4-mapped block with fewer than 128 prefix bits. */
  lemma CidrExactIff(spec: Spec)
    requires spec.Cidr? && spec.prefix <= 8 * |spec.ip|
    ensures RangeExact(spec) <==> !(MappedNetwork(spec) && spec.prefix < 128)
  {
    if MappedNetwork(spec) {
      var a: IP16;
      if spec.prefix < 128 {
        a := SecondAddress(spec.ip, spec.prefix);
        MappedRange(spec, a);
        assert !(InRange(a, ParseSpec(spec).value) <==> Names(spec, a));
      } else {
        forall a: IP16 ensures InRange(a, ParseSpec(spec).value) <==> Names(spec, a) { HostExact(spec, a); }
      }
    } else {
      forall a: IP16 ensures InRange(a, ParseSpec(spec).value) <==> Names(spec, a) {
        if |spec.ip| == 4 {
          FourByteRange(spec, a);
        } else {
          SixteenByteRange(spec, a);
        }
      }
    }
  }

  lemma HostExact(spec: Spec, a: IP16)
    requires spec.Cidr? && spec.prefix == 128 && MappedNetwork(spec)
    ensures InRange(a, ParseSpec(spec).value) <==> Names(spec, a)
  {
    var ip := spec.ip;
    MappedRange(spec, a);
    forall i | 0 <= i < 16 ensures Low(ip, 128)[i] == ip[i] == High(ip, 128)[i] { WholeByte(ip[i]); }
    assert Low(ip, 128) == ip == High(ip, 128);
    BetweenIsPrefix(ip, a, 128);
    AtMostBoth(ip, a);
  }

  lemma {:induction false} SharedBytes(a: seq<byte>, b: seq<byte>, k: nat)
    requires |a| == |b| && k <= |a| && a[..k] == b[..k]
    ensures SameBits(a, b, 8 * k)
  {
    forall i | 0 <= i < 8 * k ensures Bit(a, i) == Bit(b, i) {
      assert a[i / 8] == a[..k][i / 8] == b[..k][i / 8];
    }
  }

  /** ::ffff:10.0.0.0/104 names ::ffff:10.0.0.1 but its range leaves it out. */
  lemma MappedNetworkExample()
    ensures var spec := Cidr(V4_IN_V6 + [10, 0, 0, 0], 104); var a: IP16 := V4_IN_V6 + [10, 0, 0, 1];
            Names(spec, a) && !InRange(a, ParseSpec(spec).value)
  {
    var ip: IP16 := V4_IN_V6 + [10, 0, 0, 0];
    var spec := Cidr(ip, 104);
    var a: IP16 := V4_IN_V6 + [10, 0, 0, 1];
    assert a[..13] == ip[..13];
    SharedBytes(a, ip, 13);
    assert ip[..12] == V4_IN_V6;
    MappedRange(spec, a);
    NoByte(ip[15]);
    assert Low(ip, 104)[15] == 0;
  }
}
