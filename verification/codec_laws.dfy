/** What packing and parsing promise each other. */
module CodecLaws {
  import opened Bytes
  import opened Codec

  predicate OneByte(s: Str) { |s| < 256 }

  predicate PortNumber(p: int) { 0 <= p < 0x1_0000 }

  predicate KnownProtocol(p: Str) { p == TCP || p == UDP || p == [] }

  /** The messages the wire format can express: fields in range, and only the
      fields present that the kind and its flags allow. */
  predicate Canonical(m: Message) {
    match m
    case Auth(token, _, _) => OneByte(token)
    case AuthResponse(success, error, token) =>
      OneByte(error) && OneByte(token) && if success then error == [] else token == []
    case Connect(protocol, address, port, _, _) =>
      KnownProtocol(protocol) && if protocol == TCP then OneByte(address) && PortNumber(port) else address == [] && port == 0
    case ConnectResponse(success, error, _) => OneByte(error) && (success ==> error == [])
    case Data(protocol, _, data, _, address, port, target, targetPort, _) =>
      && KnownProtocol(protocol) && |data| + 22 < U32
      && if protocol == UDP then OneByte(address) && PortNumber(port) && OneByte(target) && PortNumber(targetPort)
         else address == [] && port == 0 && target == [] && targetPort == 0
    case Disconnect(_, error) => OneByte(error)
    case Connector(_, token, operation) => OneByte(token) && (operation == ADD || operation == REMOVE)
    case ConnectorResponse(success, error, _, token) =>
      OneByte(error) && OneByte(token) && if success then error == [] else token == []
    case ChannelOpen(_, _) => true
    case Sealed(_, data) => |data| + 20 < U32
    case WebData(_, data, _) => |data| + 21 < U32
    case WebSocketFrame(_, opcode, data) => (opcode == 1 || opcode == 2) && |data| < U32
    case Json(kind, text) => JsonKind(kind) && |text| + 4 < U32
    case Unknown(_) => false
  }

  predicate Plain(m: Message) { m.Data? ==> m.compression != GZIP }

  // ------------------------------------------------------- parse after pack

  lemma PortBack(p: int)
    requires PortNumber(p)
    ensures U16(Port(p)[0], Port(p)[1]) == p
  {
  }

  /** The three parts of a concatenation, by position. */
  lemma Parts(pre: seq<byte>, x: seq<byte>, post: seq<byte>)
    ensures var p := pre + x + post;
            && p[..|pre|] == pre && p[|pre|..|pre| + |x|] == x && p[|pre| + |x|..] == post
            && forall i | 0 <= i < |pre| :: p[i] == pre[i]
  {
  }

  /** A short text behind `pre` reads back. */
  lemma ShortBack(pre: seq<byte>, s: Str, post: seq<byte>)
    requires OneByte(s)
    ensures var p, n := pre + Short(s) + post, |pre|;
            && |p| == n + 1 + |s| + |post| && Int(p[n]) == |s| && p[n + 1..n + 1 + |s|] == s
            && p[..n] == pre && p[n + 1 + |s|..] == post && forall i | 0 <= i < n :: p[i] == pre[i]
  {
    var p := pre + Short(s) + post;
    assert p == (pre + [|s|]) + s + post;
    Parts(pre + [|s|], s, post);
    assert p[|pre|] == (pre + [|s|])[|pre|];
    assert p[..|pre|] == p[..|pre| + 1][..|pre|];
  }

  lemma LongField(p: seq<byte>, at: nat, d: seq<byte>)
    requires 4 <= at && at + |d| <= |p| && at + |d| < U32
    requires FromBE(p[at - 4..at]) == |d| && p[at..at + |d|] == d
    ensures LongAt(p, at) == Piece(d)
  {
  }

  lemma FourBytesBack(n: nat, width: nat)
    requires n < U32 && width == 4
    ensures FromBE(BE(n, width)) == n
  {
    Pow256Values();
    BERoundTrip(n, width);
  }

  lemma SizeBack(d: seq<byte>)
    requires |d| < U32
    ensures FromBE(BE(|d|, 4)) == |d|
  {
    FourBytesBack(|d|, 4);
  }

  /** Long data behind `pre` reads back. */
  lemma LongBack(pre: seq<byte>, d: seq<byte>, post: seq<byte>)
    requires |pre| + 4 + |d| < U32
    ensures var p := pre + Long(d) + post;
            && LongAt(p, |pre| + 4) == Piece(d) && p[|pre| + 4 + |d|..] == post && p[..|pre|] == pre
            && forall i | 0 <= i < |pre| :: p[i] == pre[i]
  {
    SizeBack(d);
    SizedBack(pre, BE(|d|, 4), d, post);
    assert pre + Long(d) + post == pre + BE(|d|, 4) + d + post;
  }

  lemma SizedBack(pre: seq<byte>, size: seq<byte>, d: seq<byte>, post: seq<byte>)
    requires |size| == 4 && FromBE(size) == |d| && |pre| + 4 + |d| < U32
    ensures var p := pre + size + d + post;
            && LongAt(p, |pre| + 4) == Piece(d) && p[|pre| + 4 + |d|..] == post && p[..|pre|] == pre
            && forall i | 0 <= i < |pre| :: p[i] == pre[i]
  {
    var p := pre + size + d + post;
    assert p == pre + size + (d + post);
    Parts(pre, size, d + post);
    Parts(pre + size, d, post);
    LongField(p, |pre| + 4, d);
  }

  lemma AuthBack(z: Zip, m: Message)
    requires m.Auth? && Canonical(m)
    ensures ParseAuth(Payload(z, m)) == Message(m)
  {
    var p, n := Payload(z, m), |m.token|;
    var tail := [BoolByte(m.reverse)] + m.instance;
    assert p == [] + Short(m.token) + tail;
    ShortBack([], m.token, tail);
    AuthTail(p, n, m.reverse, m.instance);
  }

  lemma AuthTail(p: seq<byte>, n: nat, reverse: bool, instance: UUID)
    requires n + 1 <= |p| && p[n + 1..] == [BoolByte(reverse)] + instance
    ensures |p| == n + 18 && p[1 + n] == BoolByte(reverse) && p[1 + n + 1..1 + n + 1 + 16] == instance
  {
    var tail := p[n + 1..];
    assert tail[0] == p[1 + n];
    assert tail[1..] == p[n + 2..];
    assert tail[1..] == instance;
  }

  lemma AuthResponseBack(z: Zip, m: Message)
    requires m.AuthResponse? && Canonical(m)
    ensures ParseAuthResponse(Payload(z, m)) == Message(m)
  {
    var p := Payload(z, m);
    if !m.success {
      assert p == [0] + Short(m.error) + [];
      ShortBack([0], m.error, []);
    } else if m.token != [] {
      assert p == [1] + Short(m.token) + [];
      ShortBack([1], m.token, []);
    } else {
      assert p == [1];
    }
  }

  lemma ConnectBack(z: Zip, m: Message)
    requires m.Connect? && Canonical(m)
    ensures ParseConnect(Payload(z, m)) == Message(m)
  {
    var p := Payload(z, m);
    var flag := if m.resume then [1] else [];
    if m.protocol == TCP {
      var rest := Short(m.address) + Port(m.port) + flag;
      assert p == [1] + m.channelID + rest;
      Parts([1], m.channelID, rest);
      AddressBack(m.address, m.port, flag);
    } else {
      assert p == [ProtocolByte(m.protocol)] + m.channelID + flag;
      Parts([ProtocolByte(m.protocol)], m.channelID, flag);
    }
  }

  lemma ConnectResponseBack(z: Zip, m: Message)
    requires m.ConnectResponse? && Canonical(m)
    ensures ParseConnectResponse(Payload(z, m)) == Message(m)
  {
    var p := Payload(z, m);
    if !m.success {
      var pre := [0] + m.channelID;
      assert p == pre + Short(m.error) + [];
      ShortBack(pre, m.error, []);
      assert p[1..17] == pre[1..17];
    } else {
      assert p == [1] + m.channelID + [];
      Parts([1], m.channelID, []);
    }
  }

  /** A text and a port read back from the front of `Short + Port + tail`. */
  lemma AddressBack(s: Str, port: int, tail: seq<byte>)
    requires OneByte(s) && PortNumber(port)
    ensures var rest := Short(s) + Port(port) + tail; var n := |s|;
            && |rest| == 1 + n + 2 + |tail| && Int(rest[0]) == n && rest[1..1 + n] == s
            && U16(rest[1 + n], rest[1 + n + 1]) == port && rest[1 + n + 2..] == tail
  {
    var rest := Short(s) + Port(port) + tail;
    PortBack(port);
    Parts(Short(s), Port(port), tail);
    assert rest == [] + Short(s) + (Port(port) + tail);
    ShortBack([], s, Port(port) + tail);
    var two := rest[1 + |s|..1 + |s| + 2];
    assert two[0] == rest[1 + |s|] && two[1] == rest[1 + |s| + 1];
  }

  lemma SequenceBack(n: Uint64)
    ensures SequenceOf(if n != 0 then BE(n, 8) else []) == n
  {
    if n != 0 {
      Pow256Values();
      BERoundTrip(n, 8);
      assert BE(n, 8)[..8] == BE(n, 8);
    }
  }

  lemma UdpBack(m: Message, tail: seq<byte>)
    requires m.Data? && Canonical(m) && m.protocol == UDP && SequenceOf(tail) == m.sequence
    ensures ParseUdp(m.channelID, m.data, m.compression, Endpoints(m) + tail) == Message(m)
  {
    var tail2 := Short(m.targetAddr) + Port(m.targetPort) + tail;
    assert Endpoints(m) + tail == Short(m.address) + Port(m.port) + tail2;
    AddressBack(m.address, m.port, tail2);
    AddressBack(m.targetAddr, m.targetPort, tail);
  }

  /** Compressed data comes back too, when inflating undoes deflating. */
  predicate Inflates(z: Zip, m: Message) {
    m.Data? && m.compression == GZIP ==>
      |z.deflate(m.data)| + 22 < U32 && z.inflate(z.deflate(m.data)) == Some(m.data)
  }

  lemma DataBack(z: Zip, m: Message)
    requires m.Data? && Canonical(m) && Inflates(z, m)
    ensures ParseData(z, Payload(z, m)) == Message(m)
  {
    var raw := if m.compression == GZIP then z.deflate(m.data) else m.data;
    var pre := [ProtocolByte(m.protocol)] + m.channelID + [m.compression];
    var tail := if m.sequence != 0 then BE(m.sequence, 8) else [];
    SequenceBack(m.sequence);
    DataHeadBack(m, pre, raw, Endpoints(m) + tail);
    DataBackFrom(z, m, pre + Long(raw) + (Endpoints(m) + tail), raw, tail);
  }

  lemma DataHeadBack(m: Message, pre: seq<byte>, raw: seq<byte>, post: seq<byte>)
    requires m.Data? && pre == [ProtocolByte(m.protocol)] + m.channelID + [m.compression] && |raw| + 22 < U32
    ensures var p := pre + Long(raw) + post;
            && |p| >= 22 && p[0] == ProtocolByte(m.protocol) && p[1..17] == m.channelID && p[17] == m.compression
            && LongAt(p, 22) == Piece(raw) && p[22 + |raw|..] == post
  {
    var p := pre + Long(raw) + post;
    LongBack(pre, raw, post);
    assert p[0] == pre[0] && p[17] == pre[17];
    assert p[1..17] == p[..18][1..17];
    assert pre[1..17] == m.channelID;
  }

  lemma DataBackFrom(z: Zip, m: Message, p: seq<byte>, raw: seq<byte>, tail: seq<byte>)
    requires m.Data? && Canonical(m) && SequenceOf(tail) == m.sequence
    requires (if m.compression == GZIP then z.inflate(raw) else Some(raw)) == Some(m.data)
    requires |p| >= 22 && p[0] == ProtocolByte(m.protocol) && p[1..17] == m.channelID && p[17] == m.compression
    requires LongAt(p, 22) == Piece(raw) && p[22 + |raw|..] == Endpoints(m) + tail
    ensures ParseData(z, p) == Message(m)
  {
    if m.protocol == UDP {
      UdpBack(m, tail);
    } else {
      assert Endpoints(m) + tail == tail;
    }
  }

  lemma DisconnectBack(z: Zip, m: Message)
    requires m.Disconnect? && Canonical(m)
    ensures ParseDisconnect(Payload(z, m)) == Message(m)
  {
    var p := Payload(z, m);
    if m.error != [] {
      assert p == m.channelID + Short(m.error) + [];
      ShortBack(m.channelID, m.error, []);
    } else {
      assert p == m.channelID;
    }
  }

  lemma ConnectorBack(z: Zip, m: Message)
    requires m.Connector? && Canonical(m)
    ensures ParseConnector(Payload(z, m)) == Message(m)
  {
    var p := Payload(z, m);
    var op := [OperationByte(m.operation)];
    assert p == m.channelID + Short(m.token) + op;
    ShortBack(m.channelID, m.token, op);
    var rest := p[16..];
    assert rest[1..1 + |m.token|] == p[17..17 + |m.token|];
    assert rest[1 + |m.token|] == p[17 + |m.token|..][0];
  }

  lemma ConnectorResponseBack(z: Zip, m: Message)
    requires m.ConnectorResponse? && Canonical(m)
    ensures ParseConnectorResponse(Payload(z, m)) == Message(m)
  {
    var p := Payload(z, m);
    var pre := m.channelID + [BoolByte(m.success)];
    assert pre[..16] == m.channelID;
    if !m.success {
      assert p == pre + Short(m.error) + [];
      ShortBack(pre, m.error, []);
      assert p[..16] == p[..17][..16];
    } else if m.token != [] {
      assert p == pre + Short(m.token) + [];
      ShortBack(pre, m.token, []);
      assert p[..16] == p[..17][..16];
    } else {
      assert p == pre;
    }
  }

  lemma ChannelOpenBack(z: Zip, m: Message)
    requires m.ChannelOpen?
    ensures ParseChannelOpen(Payload(z, m)) == Message(m)
  {
    var flag := if m.resume then [1] else [];
    assert Payload(z, m) == [] + m.channelID + flag;
    Parts([], m.channelID, flag);
  }

  lemma SealedBack(z: Zip, m: Message)
    requires m.Sealed? && Canonical(m)
    ensures ParseSealed(Payload(z, m)) == Message(m)
  {
    assert Payload(z, m) == m.channelID + Long(m.data) + [];
    LongBack(m.channelID, m.data, []);
  }

  lemma WebDataBack(z: Zip, m: Message)
    requires m.WebData? && Canonical(m)
    ensures ParseWebData(Payload(z, m)) == Message(m)
  {
    var p := Payload(z, m);
    var pre := m.channelID + [BoolByte(m.end)];
    assert p == pre + Long(m.data) + [];
    LongBack(pre, m.data, []);
    assert p[16] == pre[16];
    assert p[..16] == p[..17][..16] == m.channelID;
  }

  lemma WebSocketFrameBack(z: Zip, m: Message)
    requires m.WebSocketFrame? && Canonical(m)
    ensures ParseWebSocketFrame(Payload(z, m)) == Message(m)
  {
    var p := Payload(z, m);
    var pre := m.channelID + [m.opcode];
    SizeBack(m.data);
    assert p == pre + BE(|m.data|, 4) + m.data;
    Parts(pre, BE(|m.data|, 4), m.data);
    assert p[16] == pre[16];
    assert p[..16] == p[..17][..16] == m.channelID;
  }

  lemma JsonBack(z: Zip, m: Message)
    requires m.Json? && Canonical(m)
    ensures ParseJson(m.kind, Payload(z, m)) == Message(m)
  {
    var p := Payload(z, m);
    assert p == [] + Long(m.text) + [];
    LongBack([], m.text, []);
  }

  lemma ControlBack(z: Zip, m: Message)
    requires Canonical(m) && Kind(m) <= 0x08 && !m.Json? && !m.Data?
    ensures ParseBody(z, Kind(m), Payload(z, m)) == Message(m)
  {
    match m
    case Auth(_, _, _) => AuthBack(z, m);
    case AuthResponse(_, _, _) => AuthResponseBack(z, m);
    case Connect(_, _, _, _, _) => ConnectBack(z, m);
    case ConnectResponse(_, _, _) => ConnectResponseBack(z, m);
    case Disconnect(_, _) => DisconnectBack(z, m);
    case Connector(_, _, _) => ConnectorBack(z, m);
    case ConnectorResponse(_, _, _, _) => ConnectorResponseBack(z, m);
  }

  lemma PayloadBack(z: Zip, m: Message)
    requires Canonical(m) && Inflates(z, m)
    ensures ParseBody(z, Kind(m), Payload(z, m)) == Message(m)
  {
    match m
    case Data(_, _, _, _, _, _, _, _, _) => DataBack(z, m);
    case ChannelOpen(_, _) => ChannelOpenBack(z, m);
    case Sealed(_, _) => SealedBack(z, m);
    case WebData(_, _, _) => WebDataBack(z, m);
    case WebSocketFrame(_, _, _) => WebSocketFrameBack(z, m);
    case Json(_, _) => JsonBack(z, m);
    case _ => ControlBack(z, m);
  }

  lemma ParsePacked(z: Zip, m: Message, version: byte)
    requires Packable(m)
    ensures Parse(z, Pack(z, m, version).bytes)
            == if MajorSupported(version) then (ParseBody(z, Kind(m), Payload(z, m)), version) else (ParseError, version)
  {
    assert Pack(z, m, version).bytes[2..] == Payload(z, m);
  }

  /** A canonical message of any supported generation comes back unchanged. */
  lemma RoundTrip(z: Zip, m: Message, version: byte)
    requires Canonical(m) && Inflates(z, m) && MajorSupported(version)
    ensures Pack(z, m, version).Bytes? && Parse(z, Pack(z, m, version).bytes) == (Message(m), version)
  {
    ParsePacked(z, m, version);
    PayloadBack(z, m);
  }

  // ------------------------------------------------- what parsing can yield

  predicate CanonicalResult(r: Parsed) {
    r.Message? && !r.msg.Unknown? && Plain(r.msg) ==> Canonical(r.msg)
  }

  lemma UdpCanonical(id: UUID, data: seq<byte>, compression: byte, rest: seq<byte>)
    requires |data| + 22 < U32
    ensures CanonicalResult(ParseUdp(id, data, compression, rest))
  {
  }

  lemma DataCanonical(z: Zip, p: seq<byte>)
    ensures CanonicalResult(ParseData(z, p))
  {
    if |p| >= 22 && LongAt(p, 22).Piece? && p[17] != GZIP {
      var raw := LongAt(p, 22).bytes;
      UdpCanonical(p[1..17], raw, p[17], p[22 + |raw|..]);
    }
  }

  lemma ResponseCanonical(p: seq<byte>)
    ensures CanonicalResult(ParseAuth(p)) && CanonicalResult(ParseAuthResponse(p))
    ensures CanonicalResult(ParseConnectResponse(p)) && CanonicalResult(ParseConnectorResponse(p))
    ensures CanonicalResult(ParseConnect(p))
  {
  }

  lemma TextCanonical(t: byte, p: seq<byte>)
    ensures CanonicalResult(ParseDisconnect(p)) && CanonicalResult(ParseConnector(p))
    ensures JsonKind(t) ==> CanonicalResult(ParseJson(t, p))
  {
    Pow256Values();
  }

  lemma FramedCanonical(p: seq<byte>)
    ensures CanonicalResult(ParseWebData(p)) && CanonicalResult(ParseSealed(p)) && CanonicalResult(ParseWebSocketFrame(p))
  {
    Pow256Values();
  }

  /** Whatever bytes arrive, a message they parse to is canonical. */
  lemma ParsedIsCanonical(z: Zip, data: seq<byte>)
    ensures CanonicalResult(Parse(z, data).0)
  {
    if |data| >= 2 {
      DataCanonical(z, data[2..]);
      ResponseCanonical(data[2..]);
      TextCanonical(data[1], data[2..]);
      FramedCanonical(data[2..]);
    }
  }

  /** Packing then parsing is the identity exactly on the canonical messages. */
  lemma RoundTripIff(z: Zip, m: Message, version: byte)
    requires Plain(m) && !m.Unknown? && MajorSupported(version)
    ensures Pack(z, m, version).Bytes? && Parse(z, Pack(z, m, version).bytes) == (Message(m), version) <==> Canonical(m)
  {
    if Canonical(m) {
      RoundTrip(z, m, version);
    } else if Pack(z, m, version).Bytes? {
      ParsedIsCanonical(z, Pack(z, m, version).bytes);
    }
  }

  /** The header length of the kinds whose data length is checked in 64 bits
      but sliced in 32. */
  function LongHeader(t: byte): nat {
    if t == 0x04 then 22 else if t == 0x1B then 20 else if t == 0x16 then 21 else if JsonKind(t) then 4 else 0
  }

  /** Parsing leaves the bounds of its input exactly when a 32-bit length plus
      its header wraps and the input really is that long; so never on fewer
      than 2^32 bytes. */
  lemma OutOfRangeIff(z: Zip, data: seq<byte>)
    ensures Parse(z, data).0.OutOfRange? <==>
              |data| >= 2 && MajorSupported(data[0]) && LongHeader(data[1]) > 0 && Wraps(data[2..], LongHeader(data[1]))
    ensures |data| < U32 ==> !Parse(z, data).0.OutOfRange?
  {
    if |data| >= 2 && MajorSupported(data[0]) {
      var t, p := data[1], data[2..];
      if LongHeader(t) > 0 && |p| >= LongHeader(t) {
        BadSliceIff(p, LongHeader(t));
      }
      if t == 0x04 {
        DataOutOfRange(z, p);
      }
    }
  }

  /** The family is real: a data message whose length field is all ones, with
      that many bytes behind it. */
  lemma OutOfRangeExample(z: Zip)
    ensures exists data: seq<byte> :: |data| == U32 + 23 && Parse(z, data).0.OutOfRange?
  {
    var head, body: seq<byte> := seq(18, _ => 0), seq(U32 - 1, _ => 0);
    var size: seq<byte> := [255, 255, 255, 255];
    var p := head + size + body;
    var data: seq<byte> := [0x20, 0x04] + p;
    assert data[2..] == p && p[18..22] == size;
    AllOnes(size);
    OutOfRangeIff(z, data);
  }

  lemma AllOnes(b: seq<byte>)
    requires b == [255, 255, 255, 255]
    ensures FromBE(b) == U32 - 1
  {
    assert b[..3] == [255, 255, 255] && b[..3][..2] == [255, 255] && b[..3][..2][..1] == [255];
    assert FromBE([255]) == 255 by { assert [255][..0] == []; }
    assert FromBE([255, 255]) == 0xFFFF;
    assert FromBE([255, 255, 255]) == 0xFF_FFFF;
  }

  predicate Wraps(p: seq<byte>, h: nat)
    requires h >= 4
  {
    |p| >= h && h + FromBE(p[h - 4..h]) >= U32 && |p| >= h + FromBE(p[h - 4..h])
  }

  lemma BadSliceIff(p: seq<byte>, at: nat)
    requires 4 <= at <= |p| && at < 256
    ensures LongAt(p, at).BadSlice? <==> Wraps(p, at)
  {
    Pow256Values();
    var n := FromBE(p[at - 4..at]);
    assert at + n >= U32 ==> (at + n) % U32 == at + n - U32;
  }

  lemma DataOutOfRange(z: Zip, p: seq<byte>)
    ensures ParseData(z, p).OutOfRange? <==> |p| >= 22 && LongAt(p, 22).BadSlice?
  {
  }
}
