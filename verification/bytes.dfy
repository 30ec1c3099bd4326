/** Bytes, big-endian numbers, hexadecimal text, and a few shared idioms. */
module Bytes {
  type byte = x: int | 0 <= x < 256

  datatype Option<+T> = None | Some(value: T)

  function Members<T(==)>(s: seq<T>): set<T> { set x | x in s }

  lemma MembersMore<T>(s: seq<T>, i: nat)
    requires i < |s|
    ensures Members(s[..i + 1]) == Members(s[..i]) + {s[i]}
  {
    assert s[..i + 1] == s[..i] + [s[i]];
  }

  /** A byte as an integer. */
  function Int(b: byte): nat { b }

  function U16(hi: byte, lo: byte): nat { Int(hi) * 256 + Int(lo) }

  /** The low sixteen bits of n, most significant byte first. */
  function BE16(n: nat): (r: seq<byte>)
    ensures |r| == 2 && (n < 0x1_0000 ==> U16(r[0], r[1]) == n)
  {
    [n / 256 % 256, n % 256]
  }

  lemma BE16Iff(hi: byte, lo: byte, n: nat)
    requires n < 0x1_0000
    ensures [hi, lo] == BE16(n) <==> U16(hi, lo) == n
  {
    if U16(hi, lo) == n {
      assert n / 256 == Int(hi) && n % 256 == Int(lo);
    }
  }

  function Pow2(n: nat): (r: nat)
    ensures r >= 1
  {
    if n == 0 then 1 else 2 * Pow2(n - 1)
  }

  lemma Pow2Values()
    ensures Pow2(0) == 1 && Pow2(1) == 2 && Pow2(2) == 4 && Pow2(3) == 8 && Pow2(4) == 16
    ensures Pow2(5) == 32 && Pow2(6) == 64 && Pow2(7) == 128 && Pow2(8) == 256
  {
  }

  /** x shifted right by j bits. */
  function Shr(x: nat, j: nat): nat { if j == 0 then x else Shr(x / 2, j - 1) }

  lemma {:induction false} ShrHalf(x: nat, j: nat)
    ensures Shr(x, j + 1) == Shr(x, j) / 2
  {
    if j > 0 {
      ShrHalf(x / 2, j - 1);
    }
  }

  function Pow256(n: nat): (r: nat)
    ensures r >= 1
  {
    if n == 0 then 1 else 256 * Pow256(n - 1)
  }

  /** The low `width` bytes of n, most significant first. */
  function BE(n: nat, width: nat): (r: seq<byte>)
    ensures |r| == width
  {
    if width == 0 then [] else BE(n / 256, width - 1) + [n % 256]
  }

  lemma BETwo(n: nat)
    ensures BE(n, 2) == [n / 256 % 256, n % 256]
  {
    assert BE(n / 256, 1) == [n / 256 % 256];
  }

  lemma BEFour(n: nat)
    ensures BE(n, 4) == [n / 0x100_0000 % 256, n / 0x1_0000 % 256, n / 256 % 256, n % 256]
  {
    var a, b := n / 256, n / 0x1_0000;
    BETwo(b);
    assert BE(n, 4) == BE(a, 3) + [n % 256];
    assert a / 256 == b && BE(a, 3) == BE(b, 2) + [a % 256];
    assert b / 256 == n / 0x100_0000;
  }

  function FromBE(b: seq<byte>): (n: nat)
    ensures n < Pow256(|b|)
  {
    if b == [] then 0 else FromBE(b[..|b| - 1]) * 256 + b[|b| - 1]
  }

  lemma {:induction false} BERoundTrip(n: nat, width: nat)
    requires n < Pow256(width)
    ensures FromBE(BE(n, width)) == n
  {
    if width > 0 {
      BERoundTrip(n / 256, width - 1);
      assert BE(n, width)[..width - 1] == BE(n / 256, width - 1);
    }
  }

  lemma {:induction false} FromBERoundTrip(b: seq<byte>)
    ensures BE(FromBE(b), |b|) == b
  {
    if b != [] {
      var front, last := b[..|b| - 1], b[|b| - 1];
      FromBERoundTrip(front);
      assert FromBE(b) / 256 == FromBE(front) && FromBE(b) % 256 == last;
      assert b == front + [last];
    }
  }

  lemma Pow256Values()
    ensures Pow256(1) == 0x100 && Pow256(2) == 0x1_0000 && Pow256(4) == 0x1_0000_0000
    ensures Pow256(8) == 0x1_0000_0000_0000_0000
  {
    assert Pow256(3) == 256 * Pow256(2);
    assert Pow256(4) == 256 * Pow256(3);
    assert Pow256(5) == 256 * Pow256(4);
    assert Pow256(6) == 256 * Pow256(5);
    assert Pow256(7) == 256 * Pow256(6);
  }

  // ------------------------------------------------------------------- hex

  function HexDigit(n: nat): (c: char)
    requires n < 16
    ensures HexValue(c) == Some(n) && c != '-'
  {
    if n < 10 then ('0' as int + n) as char else ('a' as int + n - 10) as char
  }

  function HexValue(c: char): (r: Option<nat>)
    ensures r.Some? ==> r.value < 16
  {
    if '0' <= c <= '9' then Some(c as int - '0' as int)
    else if 'a' <= c <= 'f' then Some(c as int - 'a' as int + 10)
    else if 'A' <= c <= 'F' then Some(c as int - 'A' as int + 10)
    else None
  }

  function EncodeHex(b: seq<byte>): (s: string)
    ensures |s| == 2 * |b|
    ensures forall i | 0 <= i < |s| :: s[i] != '-'
  {
    if b == [] then "" else [HexDigit(b[0] / 16), HexDigit(b[0] % 16)] + EncodeHex(b[1..])
  }

  function DecodeHex(s: string): (r: Option<seq<byte>>)
    ensures r.Some? ==> |s| == 2 * |r.value|
  {
    if s == "" then Some([])
    else if |s| == 1 || HexValue(s[0]).None? || HexValue(s[1]).None? then None
    else
      var rest := DecodeHex(s[2..]);
      if rest.None? then None else Some([HexValue(s[0]).value * 16 + HexValue(s[1]).value] + rest.value)
  }

  lemma {:induction false} HexRoundTrip(b: seq<byte>)
    ensures DecodeHex(EncodeHex(b)) == Some(b)
  {
    if b != [] {
      HexRoundTrip(b[1..]);
      assert EncodeHex(b)[2..] == EncodeHex(b[1..]);
      assert b == [b[0]] + b[1..];
    }
  }
}
