/** Exactly which byte strings parse to which message: the layouts of every
    kind, with the flags and trailing bytes a parser accepts beyond what is
    ever packed. */
module CodecReads {
  import opened Bytes
  import opened Codec
  import opened CodecLaws
  import opened CodecLayout

  // ------------------------------------------------------------- the fields

  /** A text field of at most 255 bytes. */
  ghost predicate ShortText(s: Str, field: seq<byte>) { |s| < 256 && field == [|s|] + s }

  lemma TextSplit(p: seq<byte>, at: nat)
    requires at < |p| && at + 1 + Int(p[at]) <= |p|
    ensures var n := Int(p[at]); ShortText(p[at + 1..at + 1 + n], p[at..at + 1 + n])
  {
  }

  /** A text field stands between `pre` and `tail`. */
  lemma TextRead(pre: seq<byte>, s: Str, field: seq<byte>, tail: seq<byte>)
    requires ShortText(s, field)
    ensures var p, n := pre + field + tail, |pre|;
            && |p| == n + 1 + |s| + |tail| && Int(p[n]) == |s| && p[n + 1..n + 1 + |s|] == s
            && p[..n] == pre && p[n + 1 + |s|..] == tail
  {
    var p, n := pre + field + tail, |pre|;
    assert p[n] == field[0] && p[n..n + 1 + |s|] == field;
    assert field[1..] == s;
  }

  /** Data behind its four length bytes, sliced within 32 bits. */
  ghost predicate LongData(at: nat, d: seq<byte>, field: seq<byte>) { at + 4 + |d| < U32 && field == Count(d) + d }

  lemma LongSize(p: seq<byte>, at: nat)
    requires at + 4 <= |p| && LongAt(p, at + 4).Piece?
    ensures var n := FromBE(p[at..at + 4]); at + 4 + n < U32 && at + 4 + n <= |p| && LongAt(p, at + 4).bytes == p[at + 4..at + 4 + n]
  {
    var n := FromBE(p[at..at + 4]);
    Pow256Values();
    assert p[at + 4 - 4..at + 4] == p[at..at + 4];
  }

  lemma CountBack(b: seq<byte>)
    requires |b| == 4
    ensures forall d: seq<byte> | |d| == FromBE(b) :: Count(d) == b
  {
    FromBERoundTrip(b);
    BEFour(FromBE(b));
  }

  lemma LongSplit(p: seq<byte>, at: nat)
    requires at + 4 <= |p| && LongAt(p, at + 4).Piece?
    ensures var d := LongAt(p, at + 4).bytes;
            at + 4 + |d| <= |p| && LongData(at, d, p[at..at + 4 + |d|]) && p[at + 4..at + 4 + |d|] == d
  {
    var n := FromBE(p[at..at + 4]);
    LongSize(p, at);
    CountBack(p[at..at + 4]);
    assert p[at..at + 4 + n] == p[at..at + 4] + p[at + 4..at + 4 + n];
  }

  lemma LongRead(pre: seq<byte>, d: seq<byte>, field: seq<byte>, tail: seq<byte>)
    requires LongData(|pre|, d, field)
    ensures var p, n := pre + field + tail, |pre|;
            && |p| == n + 4 + |d| + |tail| && LongAt(p, n + 4) == Piece(d) && p[..n] == pre && p[n + 4 + |d|..] == tail
  {
    BEFour(|d|);
    assert field == Long(d);
    LongBack(pre, d, tail);
  }

  /** A text and a port, then the rest. */
  ghost predicate EndpointAt(p: seq<byte>, s: Str, port: int, rest: seq<byte>) {
    |s| < 256 && PortNumber(port) && p == [|s|] + s + [port / 256, port % 256] + rest
  }

  lemma EndpointSplit(p: seq<byte>)
    requires |p| >= 1 && |p| >= 3 + Int(p[0])
    ensures var n := Int(p[0]); EndpointAt(p, p[1..1 + n], U16(p[1 + n], p[2 + n]), p[3 + n..])
  {
    var n := Int(p[0]);
    BE16Iff(p[1 + n], p[2 + n], U16(p[1 + n], p[2 + n]));
    assert p == [p[0]] + p[1..1 + n] + [p[1 + n], p[2 + n]] + p[3 + n..];
  }

  lemma EndpointRead(p: seq<byte>, s: Str, port: int, rest: seq<byte>)
    requires EndpointAt(p, s, port, rest)
    ensures |p| == 3 + |s| + |rest| && Int(p[0]) == |s| && p[1..1 + |s|] == s
    ensures U16(p[1 + |s|], p[2 + |s|]) == port && p[3 + |s|..] == rest
  {
    assert p[1 + |s|] == port / 256 && p[2 + |s|] == port % 256;
  }

  /** The first byte of what is left, if any, is not zero. */
  predicate Set(tail: seq<byte>) { tail != [] && tail[0] != 0 }

  // ------------------------------------------------------------ each layout

  ghost predicate AuthAt(p: seq<byte>, m: Message, field: seq<byte>, flag: byte, tail: seq<byte>) {
    m.Auth? && ShortText(m.token, field) && p == field + [flag] + m.instance + tail && m.reverse == (flag != 0)
  }

  lemma AuthSplits(p: seq<byte>, m: Message)
    requires ParseAuth(p) == Message(m)
    ensures exists field, flag, tail :: AuthAt(p, m, field, flag, tail)
  {
    var n := Int(p[0]);
    TextSplit(p, 0);
    assert p == p[0..1 + n] + [p[1 + n]] + p[2 + n..18 + n] + p[18 + n..];
    assert AuthAt(p, m, p[0..1 + n], p[1 + n], p[18 + n..]);
  }

  lemma AuthParses(p: seq<byte>, m: Message, field: seq<byte>, flag: byte, tail: seq<byte>)
    requires AuthAt(p, m, field, flag, tail)
    ensures ParseAuth(p) == Message(m)
  {
    var rest, n := [flag] + m.instance + tail, |m.token|;
    assert p == [] + field + rest;
    TextRead([], m.token, field, rest);
    assert p[1 + n] == p[1 + n..][0] == flag;
    assert p[1 + n + 1..1 + n + 1 + 16] == p[1 + n..][1..17] == m.instance;
  }

  lemma AuthIff(p: seq<byte>, m: Message)
    ensures ParseAuth(p) == Message(m) <==> exists field, flag, tail :: AuthAt(p, m, field, flag, tail)
  {
    if ParseAuth(p) == Message(m) {
      AuthSplits(p, m);
    }
    if field, flag, tail :| AuthAt(p, m, field, flag, tail) {
      AuthParses(p, m, field, flag, tail);
    }
  }

  /** Without a text, or with one that is an error or a token as the flag says. */
  ghost predicate AuthResponseAt(p: seq<byte>, m: Message, flag: byte, s: Str, field: seq<byte>, tail: seq<byte>) {
    || (p == [flag] && m == AuthResponse(flag != 0, [], []))
    || (p == [flag] + field + tail && ShortText(s, field)
        && m == if flag != 0 then AuthResponse(true, [], s) else AuthResponse(false, s, []))
  }

  lemma AuthResponseIff(p: seq<byte>, m: Message)
    ensures ParseAuthResponse(p) == Message(m) <==> exists flag, s, field, tail :: AuthResponseAt(p, m, flag, s, field, tail)
  {
    if ParseAuthResponse(p) == Message(m) {
      if |p| == 1 {
        assert AuthResponseAt(p, m, p[0], [], [], []);
      } else {
        var n := Int(p[1]);
        TextSplit(p, 1);
        assert p == [p[0]] + p[1..2 + n] + p[2 + n..];
        assert AuthResponseAt(p, m, p[0], p[2..2 + n], p[1..2 + n], p[2 + n..]);
      }
    }
    if flag, s, field, tail :| AuthResponseAt(p, m, flag, s, field, tail) {
      if p != [flag] {
        TextRead([flag], s, field, tail);
        assert p[0] == p[..1][0] == flag;
      }
    }
  }

  /** Protocol 1 is TCP and has a destination; 2 is UDP; others have no name. */
  ghost predicate ConnectAt(p: seq<byte>, m: Message, code: byte, rest: seq<byte>, tail: seq<byte>) {
    && m.Connect? && p == [code] + m.channelID + rest && m.resume == Set(tail)
    && if code == 1 then m.protocol == [116, 99, 112] && EndpointAt(rest, m.address, m.port, tail)
       else m.protocol == (if code == 2 then [117, 100, 112] else []) && m.address == [] && m.port == 0 && rest == tail
  }

  lemma ConnectParses(p: seq<byte>, m: Message, code: byte, rest: seq<byte>, tail: seq<byte>)
    requires ConnectAt(p, m, code, rest, tail)
    ensures ParseConnect(p) == Message(m)
  {
    assert p[0] == code && p[1..17] == m.channelID && p[17..] == rest;
    if code == 1 {
      EndpointRead(rest, m.address, m.port, tail);
      var n := |m.address|;
      assert |rest| > 3 + n ==> rest[3 + n] == rest[3 + n..][0] == tail[0];
    } else {
      assert |p| > 17 ==> p[17] == p[17..][0];
    }
  }

  lemma ConnectSplits(p: seq<byte>, m: Message)
    requires ParseConnect(p) == Message(m)
    ensures exists code, rest, tail :: ConnectAt(p, m, code, rest, tail)
  {
    var rest := p[17..];
    assert p == [p[0]] + p[1..17] + rest;
    if p[0] == 1 {
      EndpointSplit(rest);
      assert ConnectAt(p, m, 1, rest, rest[3 + Int(rest[0])..]);
    } else {
      assert ConnectAt(p, m, p[0], rest, rest);
    }
  }

  lemma ConnectIff(p: seq<byte>, m: Message)
    ensures ParseConnect(p) == Message(m) <==> exists code, rest, tail :: ConnectAt(p, m, code, rest, tail)
  {
    if ParseConnect(p) == Message(m) {
      ConnectSplits(p, m);
    }
    if code, rest, tail :| ConnectAt(p, m, code, rest, tail) {
      ConnectParses(p, m, code, rest, tail);
    }
  }

  ghost predicate ConnectResponseAt(p: seq<byte>, m: Message, flag: byte, field: seq<byte>, tail: seq<byte>) {
    && m.ConnectResponse? && m.success == (flag != 0)
    && if flag != 0 then m.error == [] && p == [flag] + m.channelID + tail
       else ShortText(m.error, field) && p == [0] + m.channelID + field + tail
  }

  lemma ConnectResponseIff(p: seq<byte>, m: Message)
    ensures ParseConnectResponse(p) == Message(m) <==> exists flag, field, tail :: ConnectResponseAt(p, m, flag, field, tail)
  {
    if ParseConnectResponse(p) == Message(m) {
      if p[0] != 0 {
        assert p == [p[0]] + p[1..17] + p[17..];
        assert ConnectResponseAt(p, m, p[0], [], p[17..]);
      } else {
        var n := Int(p[17]);
        TextSplit(p, 17);
        assert p == [p[0]] + p[1..17] + p[17..18 + n] + p[18 + n..];
        assert ConnectResponseAt(p, m, 0, p[17..18 + n], p[18 + n..]);
      }
    }
    if flag, field, tail :| ConnectResponseAt(p, m, flag, field, tail) {
      var pre := [flag] + m.channelID;
      if flag == 0 {
        TextRead(pre, m.error, field, tail);
      }
      assert p[..17] == pre;
      assert p[0] == pre[0] && p[1..17] == pre[1..];
    }
  }

  ghost predicate DisconnectAt(p: seq<byte>, m: Message, field: seq<byte>, tail: seq<byte>) {
    m.Disconnect? && ((p == m.channelID && m.error == []) || (ShortText(m.error, field) && p == m.channelID + field + tail))
  }

  lemma DisconnectIff(p: seq<byte>, m: Message)
    ensures ParseDisconnect(p) == Message(m) <==> exists field, tail :: DisconnectAt(p, m, field, tail)
  {
    if ParseDisconnect(p) == Message(m) {
      if |p| == 16 {
        assert p[..16] == p;
        assert DisconnectAt(p, m, [], []);
      } else {
        var n := Int(p[16]);
        TextSplit(p, 16);
        assert p == p[..16] + p[16..17 + n] + p[17 + n..];
        assert DisconnectAt(p, m, p[16..17 + n], p[17 + n..]);
      }
    }
    if field, tail :| DisconnectAt(p, m, field, tail) {
      if p != m.channelID {
        TextRead(m.channelID, m.error, field, tail);
      } else {
        assert p[..16] == p;
      }
    }
  }

  /** Operation 1 is "add" and 2 is "remove"; there are no others. */
  ghost predicate ConnectorAt(p: seq<byte>, m: Message, field: seq<byte>, code: byte, tail: seq<byte>) {
    && m.Connector? && ShortText(m.token, field) && p == m.channelID + field + [code] + tail
    && ((code == 1 && m.operation == [97, 100, 100]) || (code == 2 && m.operation == [114, 101, 109, 111, 118, 101]))
  }

  lemma ConnectorSplits(p: seq<byte>, m: Message)
    requires ParseConnector(p) == Message(m)
    ensures exists field, code, tail :: ConnectorAt(p, m, field, code, tail)
  {
    var n := Int(p[16]);
    TextSplit(p, 16);
    assert p[16..][0] == p[16] && p[16..][1 + n] == p[17 + n] && p[16..][1..1 + n] == p[17..17 + n];
    assert p == p[..16] + p[16..17 + n] + [p[17 + n]] + p[18 + n..];
    assert ConnectorAt(p, m, p[16..17 + n], p[17 + n], p[18 + n..]);
  }

  lemma ConnectorParses(p: seq<byte>, m: Message, field: seq<byte>, code: byte, tail: seq<byte>)
    requires ConnectorAt(p, m, field, code, tail)
    ensures ParseConnector(p) == Message(m)
  {
    var n := |m.token|;
    assert p == m.channelID + field + ([code] + tail);
    TextRead(m.channelID, m.token, field, [code] + tail);
    assert p[17 + n] == p[17 + n..][0] == code;
    assert p[16..][0] == p[16] && p[16..][1 + n] == p[17 + n] && p[16..][1..1 + n] == p[17..17 + n];
  }

  lemma ConnectorIff(p: seq<byte>, m: Message)
    ensures ParseConnector(p) == Message(m) <==> exists field, code, tail :: ConnectorAt(p, m, field, code, tail)
  {
    if ParseConnector(p) == Message(m) {
      ConnectorSplits(p, m);
    }
    if field, code, tail :| ConnectorAt(p, m, field, code, tail) {
      ConnectorParses(p, m, field, code, tail);
    }
  }

  ghost predicate ConnectorResponseAt(p: seq<byte>, m: Message, flag: byte, s: Str, field: seq<byte>, tail: seq<byte>) {
    && m.ConnectorResponse?
    && if |p| == 17 then p == m.channelID + [flag] && flag != 0 && m == ConnectorResponse(true, [], m.channelID, [])
       else
         && p == m.channelID + [flag] + field + tail && ShortText(s, field)
         && m == if flag != 0 then ConnectorResponse(true, [], m.channelID, s) else ConnectorResponse(false, s, m.channelID, [])
  }

  lemma ConnectorResponseIff(p: seq<byte>, m: Message)
    ensures ParseConnectorResponse(p) == Message(m) <==> exists flag, s, field, tail :: ConnectorResponseAt(p, m, flag, s, field, tail)
  {
    if ParseConnectorResponse(p) == Message(m) {
      if |p| == 17 {
        assert p == p[..16] + [p[16]];
        assert ConnectorResponseAt(p, m, p[16], [], [], []);
      } else {
        var n := Int(p[17]);
        TextSplit(p, 17);
        assert p == p[..16] + [p[16]] + p[17..18 + n] + p[18 + n..];
        assert ConnectorResponseAt(p, m, p[16], p[18..18 + n], p[17..18 + n], p[18 + n..]);
      }
    }
    if flag, s, field, tail :| ConnectorResponseAt(p, m, flag, s, field, tail) {
      var pre := m.channelID + [flag];
      if |p| != 17 {
        TextRead(pre, s, field, tail);
      }
      assert p[..17] == pre;
      assert p[16] == pre[16] && p[..16] == pre[..16];
    }
  }

  lemma ChannelOpenIff(p: seq<byte>, m: Message)
    ensures ParseChannelOpen(p) == Message(m) <==>
              m.ChannelOpen? && exists tail :: p == m.channelID + tail && m.resume == Set(tail)
  {
    if ParseChannelOpen(p) == Message(m) {
      assert p == m.channelID + p[16..] && m.resume == Set(p[16..]);
    }
    if m.ChannelOpen? {
      forall tail | p == m.channelID + tail
        ensures p[..16] == m.channelID && p[16..] == tail
      {
      }
    }
  }

  ghost predicate SealedAt(p: seq<byte>, m: Message, field: seq<byte>, tail: seq<byte>) {
    m.Sealed? && LongData(16, m.data, field) && p == m.channelID + field + tail
  }

  lemma SealedIff(p: seq<byte>, m: Message)
    ensures ParseSealed(p) == Message(m) <==> exists field, tail :: SealedAt(p, m, field, tail)
  {
    if ParseSealed(p) == Message(m) {
      LongSplit(p, 16);
      var n := |m.data|;
      assert p == p[..16] + p[16..20 + n] + p[20 + n..];
      assert SealedAt(p, m, p[16..20 + n], p[20 + n..]);
    }
    if field, tail :| SealedAt(p, m, field, tail) {
      LongRead(m.channelID, m.data, field, tail);
    }
  }

  /** The lowest bit of the flags ends the stream. */
  ghost predicate WebDataAt(p: seq<byte>, m: Message, flags: byte, field: seq<byte>, tail: seq<byte>) {
    m.WebData? && LongData(17, m.data, field) && p == m.channelID + [flags] + field + tail && m.end == (flags % 2 == 1)
  }

  lemma WebDataIff(p: seq<byte>, m: Message)
    ensures ParseWebData(p) == Message(m) <==> exists flags, field, tail :: WebDataAt(p, m, flags, field, tail)
  {
    if ParseWebData(p) == Message(m) {
      LongSplit(p, 17);
      var n := |m.data|;
      assert p == p[..16] + [p[16]] + p[17..21 + n] + p[21 + n..];
      assert WebDataAt(p, m, p[16], p[17..21 + n], p[21 + n..]);
    }
    if flags, field, tail :| WebDataAt(p, m, flags, field, tail) {
      var pre := m.channelID + [flags];
      LongRead(pre, m.data, field, tail);
      assert p[16] == pre[16] && p[..16] == pre[..16];
    }
  }

  /** A web socket frame is read only when its length is exact. */
  lemma WebSocketFrameIff(p: seq<byte>, m: Message)
    ensures ParseWebSocketFrame(p) == Message(m) <==>
              && m.WebSocketFrame? && (m.opcode == 1 || m.opcode == 2) && |m.data| < U32
              && p == m.channelID + [m.opcode] + Count(m.data) + m.data
  {
    if ParseWebSocketFrame(p) == Message(m) {
      FromBERoundTrip(p[17..21]);
      BEFour(|m.data|);
      Pow256Values();
      assert p == p[..16] + [p[16]] + p[17..21] + p[21..];
    }
    if m.WebSocketFrame? && |m.data| < U32 && p == m.channelID + [m.opcode] + Count(m.data) + m.data {
      SizeBack(m.data);
      BEFour(|m.data|);
      assert p[..16] == m.channelID && p[16] == m.opcode && p[17..21] == Count(m.data) && p[21..] == m.data;
    }
  }

  ghost predicate JsonAt(p: seq<byte>, kind: byte, m: Message, field: seq<byte>, tail: seq<byte>) {
    m.Json? && m.kind == kind && LongData(0, m.text, field) && p == field + tail
  }

  lemma JsonIff(kind: byte, p: seq<byte>, m: Message)
    ensures ParseJson(kind, p) == Message(m) <==> exists field, tail :: JsonAt(p, kind, m, field, tail)
  {
    if ParseJson(kind, p) == Message(m) {
      LongSplit(p, 0);
      var n := |m.text|;
      assert p == p[0..4 + n] + p[4 + n..];
      assert JsonAt(p, kind, m, p[0..4 + n], p[4 + n..]);
    }
    if field, tail :| JsonAt(p, kind, m, field, tail) {
      assert p == [] + field + tail;
      LongRead([], m.text, field, tail);
    }
  }

  // ----------------------------------------------------------- data messages

  /** Eight bytes of sequence number, or none; what follows is not read. */
  ghost predicate NumberAt(m: Message, tail: seq<byte>)
    requires m.Data?
  {
    m.sequence == if |tail| >= 8 then FromBE(tail[..8]) else 0
  }

  ghost predicate UdpAt(rest: seq<byte>, m: Message, middle: seq<byte>, tail: seq<byte>) {
    m.Data? && EndpointAt(rest, m.address, m.port, middle) && EndpointAt(middle, m.targetAddr, m.targetPort, tail) && NumberAt(m, tail)
  }

  lemma UdpParses(rest: seq<byte>, m: Message, middle: seq<byte>, tail: seq<byte>)
    requires UdpAt(rest, m, middle, tail) && m.protocol == UDP
    ensures ParseUdp(m.channelID, m.data, m.compression, rest) == Message(m)
  {
    EndpointRead(rest, m.address, m.port, middle);
    EndpointRead(middle, m.targetAddr, m.targetPort, tail);
    Pow256Values();
  }

  lemma UdpSplits(id: UUID, data: seq<byte>, compression: byte, rest: seq<byte>, m: Message)
    requires ParseUdp(id, data, compression, rest) == Message(m)
    ensures exists middle, tail :: UdpAt(rest, m, middle, tail)
  {
    var middle := rest[3 + Int(rest[0])..];
    EndpointSplit(rest);
    EndpointSplit(middle);
    assert UdpAt(rest, m, middle, middle[3 + Int(middle[0])..]);
  }

  lemma UdpIff(id: UUID, data: seq<byte>, compression: byte, rest: seq<byte>, m: Message)
    ensures ParseUdp(id, data, compression, rest) == Message(m) <==>
              && m.Data? && m.protocol == UDP && m.channelID == id && m.data == data && m.compression == compression
              && exists middle, tail :: UdpAt(rest, m, middle, tail)
  {
    if ParseUdp(id, data, compression, rest) == Message(m) {
      UdpSplits(id, data, compression, rest, m);
    }
    if middle, tail :| UdpAt(rest, m, middle, tail) && m.protocol == UDP {
      UdpParses(rest, m, middle, tail);
    }
  }

  ghost predicate DataHeadAt(z: Zip, p: seq<byte>, m: Message, code: byte, raw: seq<byte>, field: seq<byte>, rest: seq<byte>) {
    && m.Data? && LongData(18, raw, field) && p == [code] + m.channelID + [m.compression] + field + rest
    && (if m.compression == 1 then z.inflate(raw) == Some(m.data) else m.data == raw)
  }

  /** Only a UDP message has its two endpoints. */
  ghost predicate DataRestAt(m: Message, code: byte, rest: seq<byte>) {
    && m.Data?
    && if code == 2 then m.protocol == [117, 100, 112] && exists middle, tail :: UdpAt(rest, m, middle, tail)
       else
         && m.protocol == (if code == 1 then [116, 99, 112] else []) && NumberAt(m, rest)
         && m.address == [] && m.port == 0 && m.targetAddr == [] && m.targetPort == 0
  }

  ghost predicate DataAt(z: Zip, p: seq<byte>, m: Message, code: byte, raw: seq<byte>, field: seq<byte>, rest: seq<byte>) {
    DataHeadAt(z, p, m, code, raw, field, rest) && DataRestAt(m, code, rest)
  }

  lemma DataHead(p: seq<byte>, raw: seq<byte>)
    requires |p| >= 22 && LongAt(p, 22) == Piece(raw)
    ensures 22 + |raw| <= |p| && LongData(18, raw, p[18..22 + |raw|])
    ensures p == [p[0]] + p[1..17] + [p[17]] + p[18..22 + |raw|] + p[22 + |raw|..]
  {
    LongSplit(p, 18);
  }

  lemma RestIff(m: Message, code: byte, id: UUID, data: seq<byte>, compression: byte, rest: seq<byte>)
    requires m.Data? && m.channelID == id && m.data == data && m.compression == compression
    ensures DataRestAt(m, code, rest) <==>
              (if code == 2 then ParseUdp(id, data, compression, rest)
               else Message(Data(ByteProtocol(code), id, data, compression, [], 0, [], 0, Codec.SequenceOf(rest)))) == Message(m)
  {
    if code == 2 {
      UdpIff(id, data, compression, rest, m);
    } else {
      Pow256Values();
    }
  }

  /** What a data message takes from the front of its input. */
  lemma DataFields(z: Zip, p: seq<byte>, m: Message)
    requires ParseData(z, p) == Message(m)
    ensures |p| >= 22 && LongAt(p, 22).Piece? && m.Data? && m.channelID == p[1..17] && m.compression == p[17]
    ensures var raw := LongAt(p, 22).bytes; if p[17] == 1 then z.inflate(raw) == Some(m.data) else m.data == raw
    ensures var rest := p[22 + |LongAt(p, 22).bytes|..];
            Message(m) == if p[0] == 2 then ParseUdp(p[1..17], m.data, p[17], rest)
                          else Message(Data(ByteProtocol(p[0]), p[1..17], m.data, p[17], [], 0, [], 0, Codec.SequenceOf(rest)))
  {
  }

  lemma DataSplits(z: Zip, p: seq<byte>, m: Message)
    requires ParseData(z, p) == Message(m)
    ensures exists code, raw, field, rest :: DataAt(z, p, m, code, raw, field, rest)
  {
    DataFields(z, p, m);
    var raw := LongAt(p, 22).bytes;
    var field, rest := p[18..22 + |raw|], p[22 + |raw|..];
    DataHead(p, raw);
    RestIff(m, p[0], p[1..17], m.data, p[17], rest);
    assert DataHeadAt(z, p, m, p[0], raw, field, rest);
    assert DataAt(z, p, m, p[0], raw, field, rest);
  }

  lemma DataParses(z: Zip, p: seq<byte>, m: Message, code: byte, raw: seq<byte>, field: seq<byte>, rest: seq<byte>)
    requires DataAt(z, p, m, code, raw, field, rest)
    ensures ParseData(z, p) == Message(m)
  {
    var pre := [code] + m.channelID + [m.compression];
    LongRead(pre, raw, field, rest);
    assert p[..18] == pre;
    assert p[0] == pre[0] && p[1..17] == pre[1..17] && p[17] == pre[17];
    RestIff(m, code, m.channelID, m.data, m.compression, rest);
  }

  lemma DataIff(z: Zip, p: seq<byte>, m: Message)
    ensures ParseData(z, p) == Message(m) <==> exists code, raw, field, rest :: DataAt(z, p, m, code, raw, field, rest)
  {
    if ParseData(z, p) == Message(m) {
      DataSplits(z, p, m);
    }
    if code, raw, field, rest :| DataAt(z, p, m, code, raw, field, rest) {
      DataParses(z, p, m, code, raw, field, rest);
    }
  }

  // -------------------------------------------------------------- everything

  /** What follows the version and type bytes is a layout of this message. */
  ghost predicate BodyAt(z: Zip, t: byte, p: seq<byte>, m: Message) {
    if t == 0x01 then exists field, flag, tail :: AuthAt(p, m, field, flag, tail)
    else if t == 0x02 then exists flag, s, field, tail :: AuthResponseAt(p, m, flag, s, field, tail)
    else if t == 0x03 then exists code, rest, tail :: ConnectAt(p, m, code, rest, tail)
    else if t == 0x04 then exists code, raw, field, rest :: DataAt(z, p, m, code, raw, field, rest)
    else if t == 0x05 then exists flag, field, tail :: ConnectResponseAt(p, m, flag, field, tail)
    else if t == 0x06 then exists field, tail :: DisconnectAt(p, m, field, tail)
    else if t == 0x07 then exists field, code, tail :: ConnectorAt(p, m, field, code, tail)
    else if t == 0x08 then exists flag, s, field, tail :: ConnectorResponseAt(p, m, flag, s, field, tail)
    else if t == 0x16 then exists flags, field, tail :: WebDataAt(p, m, flags, field, tail)
    else if t == 0x19 then
      m.WebSocketFrame? && (m.opcode == 1 || m.opcode == 2) && |m.data| < U32 && p == m.channelID + [m.opcode] + Count(m.data) + m.data
    else if t == 0x1A then m.ChannelOpen? && exists tail :: p == m.channelID + tail && m.resume == Set(tail)
    else if t == 0x1B then exists field, tail :: SealedAt(p, m, field, tail)
    else if 0x09 <= t <= 0x18 then exists field, tail :: JsonAt(p, t, m, field, tail)
    else m == Unknown(t)
  }

  lemma BodyIff(z: Zip, t: byte, p: seq<byte>, m: Message)
    ensures ParseBody(z, t, p) == Message(m) <==> BodyAt(z, t, p, m)
  {
    if t == 0x01 {
      AuthIff(p, m);
    } else if t == 0x02 {
      AuthResponseIff(p, m);
    } else if t == 0x03 {
      ConnectIff(p, m);
    } else if t == 0x04 {
      DataIff(z, p, m);
    } else if t == 0x05 {
      ConnectResponseIff(p, m);
    } else if t == 0x06 {
      DisconnectIff(p, m);
    } else if t == 0x07 {
      ConnectorIff(p, m);
    } else if t == 0x08 {
      ConnectorResponseIff(p, m);
    } else if t == 0x16 {
      WebDataIff(p, m);
    } else if t == 0x19 {
      WebSocketFrameIff(p, m);
    } else if t == 0x1A {
      ChannelOpenIff(p, m);
    } else if t == 0x1B {
      SealedIff(p, m);
    } else if 0x09 <= t <= 0x18 {
      JsonIff(t, p, m);
    }
  }

  /** A byte string parses to a message if and only if it is a version byte of
      major 0 or 2, a type byte, and a layout of that message. */
  lemma ParsesIff(z: Zip, data: seq<byte>, m: Message)
    ensures Parse(z, data).0 == Message(m) <==>
              |data| >= 2 && (data[0] / 16 == 0 || data[0] / 16 == 2) && BodyAt(z, data[1], data[2..], m)
    ensures Parse(z, data).0 == Message(m) ==> Parse(z, data).1 == data[0]
  {
    if |data| >= 2 {
      BodyIff(z, data[1], data[2..], m);
    }
  }
}
