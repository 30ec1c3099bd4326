/** The binary wire format of linksocks/message.go. Strings are Go strings,
    that is, byte sequences. JSON bodies are carried as text; gzip is a pair
    of functions supplied from outside. */
module Codec {
  import opened Bytes

  type Str = seq<byte>
  type UUID = s: seq<byte> | |s| == 16 witness seq(16, _ => 0)
  type Uint64 = x: nat | x < 0x1_0000_0000_0000_0000

  const U32: nat := 0x1_0000_0000
  const TCP: Str := [116, 99, 112]
  const UDP: Str := [117, 100, 112]
  const ADD: Str := [97, 100, 100]
  const REMOVE: Str := [114, 101, 109, 111, 118, 101]
  const GZIP: byte := 1

  datatype Message =
    | Auth(token: Str, reverse: bool, instance: UUID)
    | AuthResponse(success: bool, error: Str, token: Str)
    | Connect(protocol: Str, address: Str, port: int, channelID: UUID, resume: bool)
    | ConnectResponse(success: bool, error: Str, channelID: UUID)
    | Data(protocol: Str, channelID: UUID, data: seq<byte>, compression: byte, address: Str, port: int,
           targetAddr: Str, targetPort: int, sequence: Uint64)
    | Disconnect(channelID: UUID, error: Str)
    | Connector(channelID: UUID, token: Str, operation: Str)
    | ConnectorResponse(success: bool, error: Str, channelID: UUID, token: Str)
    | ChannelOpen(channelID: UUID, resume: bool)
    | Sealed(channelID: UUID, data: seq<byte>)
    | WebData(channelID: UUID, data: seq<byte>, end: bool)
    | WebSocketFrame(channelID: UUID, opcode: byte, data: seq<byte>)
    | Json(kind: byte, text: seq<byte>)
    | Unknown(binaryType: byte)

  datatype Zip = Zip(deflate: seq<byte> -> seq<byte>, inflate: seq<byte> -> Option<seq<byte>>)

  datatype Packed = Bytes(bytes: seq<byte>) | PackError

  /** Go either returns an error or panics on a slice out of range. */
  datatype Parsed = Message(msg: Message) | ParseError | OutOfRange

  predicate JsonKind(t: byte) { 0x09 <= t <= 0x15 || t == 0x17 || t == 0x18 }

  function ProtocolByte(p: Str): byte { if p == TCP then 1 else if p == UDP then 2 else 0 }

  function ByteProtocol(b: byte): Str { if b == 1 then TCP else if b == 2 then UDP else [] }

  function OperationByte(p: Str): byte { if p == ADD then 1 else if p == REMOVE then 2 else 0 }

  function ByteOperation(b: byte): Str { if b == 1 then ADD else if b == 2 then REMOVE else [] }

  function BoolByte(b: bool): byte { if b then 1 else 0 }

  predicate MajorSupported(version: byte) { version / 16 == 2 || version / 16 == 0 }

  // ------------------------------------------------------------------ UUIDs

  /** The canonical text of a UUID: 8-4-4-4-12 hexadecimal digits. */
  function UuidText(u: seq<byte>): string {
    if |u| != 16 then ""
    else
      var h := EncodeHex(u);
      h[..8] + "-" + h[8..12] + "-" + h[12..16] + "-" + h[16..20] + "-" + h[20..]
  }

  function WithoutHyphens(s: string): string {
    if s == "" then "" else if s[0] == '-' then WithoutHyphens(s[1..]) else [s[0]] + WithoutHyphens(s[1..])
  }

  function UuidBytes(text: string): Option<seq<byte>> {
    var h := WithoutHyphens(text);
    if |h| != 32 then None else DecodeHex(h)
  }

  lemma {:induction false} WithoutHyphensConcat(a: string, b: string)
    ensures WithoutHyphens(a + b) == WithoutHyphens(a) + WithoutHyphens(b)
  {
    if a != "" {
      assert (a + b)[1..] == a[1..] + b;
      WithoutHyphensConcat(a[1..], b);
    } else {
      assert a + b == b;
    }
  }

  lemma {:induction false} NoHyphens(a: string)
    requires forall i | 0 <= i < |a| :: a[i] != '-'
    ensures WithoutHyphens(a) == a
  {
    if a != "" {
      NoHyphens(a[1..]);
      assert a == [a[0]] + a[1..];
    }
  }

  lemma OneHyphen()
    ensures WithoutHyphens("-") == ""
  {
    assert "-"[1..] == "";
  }

  lemma HyphenJoined(a: string, b: string)
    requires forall i | 0 <= i < |b| :: b[i] != '-'
    ensures WithoutHyphens(a + "-" + b) == WithoutHyphens(a) + b
  {
    var h := "-";
    OneHyphen();
    WithoutHyphensConcat(a + h, b);
    WithoutHyphensConcat(a, h);
    NoHyphens(b);
    assert WithoutHyphens(a) + "" == WithoutHyphens(a);
  }

  /** Text and bytes of a UUID determine each other. */
  lemma UuidRoundTrip(u: UUID)
    ensures UuidBytes(UuidText(u)) == Some(u)
  {
    var h := EncodeHex(u);
    var t1 := h[..8];
    var t2 := t1 + "-" + h[8..12];
    var t3 := t2 + "-" + h[12..16];
    var t4 := t3 + "-" + h[16..20];
    NoHyphens(t1);
    HyphenJoined(t1, h[8..12]);
    HyphenJoined(t2, h[12..16]);
    HyphenJoined(t3, h[16..20]);
    HyphenJoined(t4, h[20..]);
    assert h[..8] + h[8..12] == h[..12];
    assert h[..12] + h[12..16] == h[..16];
    assert h[..16] + h[16..20] == h[..20];
    assert h[..20] + h[20..] == h;
    HexRoundTrip(u);
  }

  // ---------------------------------------------------------------- packing

  /** One length byte, which keeps only the low eight bits, then the text. */
  function Short(s: Str): seq<byte> { [|s| % 256] + s }

  function Port(p: int): (r: seq<byte>)
    ensures |r| == 2
  {
    [(p / 256) % 256, p % 256]
  }

  /** Four length bytes, which keep only the low 32 bits, then the data. */
  function Long(d: seq<byte>): seq<byte> { BE(|d|, 4) + d }

  function Endpoints(m: Message): seq<byte>
    requires m.Data?
  {
    if m.protocol == UDP then Short(m.address) + Port(m.port) + Short(m.targetAddr) + Port(m.targetPort) else []
  }

  /** An error text on failure, a token on success if there is one. */
  function Outcome(success: bool, error: Str, token: Str): seq<byte> {
    if !success then Short(error) else if token != [] then Short(token) else []
  }

  /** The type byte of a message. */
  function Kind(m: Message): byte {
    match m
    case Auth(_, _, _) => 0x01
    case AuthResponse(_, _, _) => 0x02
    case Connect(_, _, _, _, _) => 0x03
    case Data(_, _, _, _, _, _, _, _, _) => 0x04
    case ConnectResponse(_, _, _) => 0x05
    case Disconnect(_, _) => 0x06
    case Connector(_, _, _) => 0x07
    case ConnectorResponse(_, _, _, _) => 0x08
    case WebData(_, _, _) => 0x16
    case WebSocketFrame(_, _, _) => 0x19
    case ChannelOpen(_, _) => 0x1A
    case Sealed(_, _) => 0x1B
    case Json(kind, _) => kind
    case Unknown(t) => t
  }

  /** What follows the version and type bytes. */
  function Payload(z: Zip, m: Message): seq<byte> {
    match m
    case Auth(token, reverse, instance) => Short(token) + ([BoolByte(reverse)] + instance)
    case AuthResponse(success, error, token) =>
      [BoolByte(success)] + Outcome(success, error, token)
    case Connect(protocol, address, port, id, resume) =>
      [ProtocolByte(protocol)] + id
      + ((if protocol == TCP then Short(address) + Port(port) else []) + if resume then [1] else [])
    case Data(protocol, id, data, compression, _, _, _, _, sequence) =>
      ([ProtocolByte(protocol)] + id + [compression])
      + Long(if compression == GZIP then z.deflate(data) else data)
      + (Endpoints(m) + if sequence != 0 then BE(sequence, 8) else [])
    case ConnectResponse(success, error, id) => [BoolByte(success)] + id + Outcome(success, error, [])
    case Disconnect(id, error) => id + if error != [] then Short(error) else []
    case Connector(id, token, operation) => id + Short(token) + [OperationByte(operation)]
    case ConnectorResponse(success, error, id, token) =>
      id + [BoolByte(success)] + Outcome(success, error, token)
    case ChannelOpen(id, resume) => id + if resume then [1] else []
    case Sealed(id, data) => id + Long(data)
    case WebData(id, data, end) => id + [BoolByte(end)] + Long(data)
    case WebSocketFrame(id, opcode, data) => id + [opcode] + Long(data)
    case Json(_, text) => Long(text)
    case Unknown(_) => []
  }

  predicate Packable(m: Message) {
    !m.Unknown? && (m.Json? ==> JsonKind(m.kind)) && (m.WebSocketFrame? ==> m.opcode == 1 || m.opcode == 2)
  }

  function Pack(z: Zip, m: Message, version: byte): Packed {
    if Packable(m) then Bytes([version, Kind(m)] + Payload(z, m)) else PackError
  }

  method AppendUuid(buf: seq<byte>, id: UUID) returns (r: seq<byte>)
    ensures r == buf + id
  {
    UuidRoundTrip(id);
    r := buf + UuidBytes(UuidText(id)).value;
  }

  lemma Regroup(a: seq<byte>, b: seq<byte>, c: seq<byte>, d: seq<byte>)
    ensures a + b + c + d == a + (b + c + d)
  {
  }

  method AppendTail(buf: seq<byte>, m: Message) returns (r: seq<byte>)
    requires m.Data?
    ensures r == buf + (Endpoints(m) + if m.sequence != 0 then BE(m.sequence, 8) else [])
  {
    r := buf;
    if m.protocol == UDP {
      r := r + Short(m.address);
      r := r + Port(m.port);
      r := r + Short(m.targetAddr);
      r := r + Port(m.targetPort);
    }
    assert r == buf + Endpoints(m);
    if m.sequence != 0 {
      r := r + BE(m.sequence, 8);
    }
  }

  method AppendData(z: Zip, buf: seq<byte>, m: Message) returns (r: seq<byte>)
    requires m.Data?
    ensures r == buf + Payload(z, m)
  {
    r := buf + [ProtocolByte(m.protocol)];
    r := AppendUuid(r, m.channelID);
    r := r + [m.compression];
    ghost var head := [ProtocolByte(m.protocol)] + m.channelID + [m.compression];
    assert r == buf + head;
    var compressed := m.data;
    if m.compression == GZIP {
      compressed := z.deflate(m.data);
    }
    r := r + Long(compressed);
    r := AppendTail(r, m);
    Regroup(buf, head, Long(compressed), Endpoints(m) + if m.sequence != 0 then BE(m.sequence, 8) else []);
  }

  method AppendConnect(buf: seq<byte>, m: Message) returns (r: seq<byte>)
    requires m.Connect?
    ensures forall z :: r == buf + Payload(z, m)
  {
    r := buf + [ProtocolByte(m.protocol)];
    r := AppendUuid(r, m.channelID);
    if m.protocol == TCP {
      r := r + Short(m.address);
      r := r + Port(m.port);
    }
    if m.resume {
      r := r + [1];
    }
  }

  method AppendOutcome(buf: seq<byte>, success: bool, error: Str, token: Str) returns (r: seq<byte>)
    ensures r == buf + Outcome(success, error, token)
  {
    r := buf;
    if !success {
      r := r + Short(error);
    } else if token != [] {
      r := r + Short(token);
    }
  }

  method AppendReply(buf: seq<byte>, m: Message) returns (r: seq<byte>)
    requires m.AuthResponse? || m.ConnectResponse? || m.ConnectorResponse?
    ensures forall z :: r == buf + Payload(z, m)
  {
    match m
    case AuthResponse(success, error, token) =>
      r := AppendOutcome(buf + [BoolByte(success)], success, error, token);
      Regroup(buf, [BoolByte(success)], Outcome(success, error, token), []);
    case ConnectResponse(success, error, id) =>
      r := AppendUuid(buf + [BoolByte(success)], id);
      r := AppendOutcome(r, success, error, []);
      Regroup(buf, [BoolByte(success)], id, Outcome(success, error, []));
    case ConnectorResponse(success, error, id, token) =>
      r := AppendUuid(buf, id);
      r := AppendOutcome(r + [BoolByte(success)], success, error, token);
      Regroup(buf, id, [BoolByte(success)], Outcome(success, error, token));
  }

  method AppendFrame(buf: seq<byte>, m: Message) returns (r: seq<byte>)
    requires m.Sealed? || m.WebData? || m.WebSocketFrame?
    ensures forall z :: r == buf + Payload(z, m)
  {
    r := AppendUuid(buf, m.channelID);
    if m.WebData? {
      r := r + [BoolByte(m.end)];
    } else if m.WebSocketFrame? {
      r := r + [m.opcode];
    }
    r := r + Long(m.data);
  }

  method AppendControl(buf: seq<byte>, m: Message) returns (r: seq<byte>)
    requires m.Auth? || m.Disconnect? || m.Connector? || m.ChannelOpen?
    ensures forall z :: r == buf + Payload(z, m)
  {
    match m
    case Auth(token, reverse, instance) =>
      r := buf + Short(token);
      r := AppendUuid(r + [BoolByte(reverse)], instance);
    case Disconnect(id, error) =>
      r := AppendUuid(buf, id);
      if error != [] {
        r := r + Short(error);
      }
    case Connector(id, token, operation) =>
      r := AppendUuid(buf, id);
      r := r + Short(token);
      r := r + [OperationByte(operation)];
    case ChannelOpen(id, resume) =>
      r := AppendUuid(buf, id);
      if resume {
        r := r + [1];
      }
  }

  /** Packing appends to a growing buffer, field by field. */
  method PackMessageWithVersion(z: Zip, m: Message, version: byte) returns (out: Packed)
    ensures out == Pack(z, m, version)
  {
    if !Packable(m) {
      return PackError;
    }
    var buf: seq<byte> := [version, Kind(m)];
    if m.Data? {
      buf := AppendData(z, buf, m);
    } else if m.AuthResponse? || m.ConnectResponse? || m.ConnectorResponse? {
      buf := AppendReply(buf, m);
    } else if m.Connect? {
      buf := AppendConnect(buf, m);
    } else if m.Sealed? || m.WebData? || m.WebSocketFrame? {
      buf := AppendFrame(buf, m);
    } else if m.Json? {
      buf := buf + Long(m.text);
    } else {
      buf := AppendControl(buf, m);
    }
    assert buf == [version, Kind(m)] + Payload(z, m);
    return Bytes(buf);
  }

  // ---------------------------------------------------------------- parsing

  datatype Piece = Piece(bytes: seq<byte>) | Truncated | BadSlice

  /** The data behind a four-byte length that ends at `at`. The upper slice
      bound is computed in 32 bits and may wrap. */
  function LongAt(p: seq<byte>, at: nat): (r: Piece)
    requires 4 <= at <= |p|
    ensures r.Piece? ==> |r.bytes| + at < U32 && at + |r.bytes| <= |p|
  {
    var n := FromBE(p[at - 4..at]);
    if |p| < at + n then Truncated
    else
      var upper := (at + n) % U32;
      Pow256Values();
      if upper < at then BadSlice else Piece(p[at..upper])
  }

  function ParseAuth(p: seq<byte>): Parsed {
    if |p| < 1 then ParseError
    else
      var n := Int(p[0]);
      if |p| < 1 + n + 1 + 16 then ParseError
      else Message(Auth(p[1..1 + n], p[1 + n] != 0, p[1 + n + 1..1 + n + 1 + 16]))
  }

  function ParseAuthResponse(p: seq<byte>): Parsed {
    if |p| < 1 then ParseError
    else
      var success := p[0] != 0;
      if |p| > 1 then
        if |p| < 2 + Int(p[1]) then ParseError
        else if success then Message(AuthResponse(true, [], p[2..2 + Int(p[1])]))
        else Message(AuthResponse(false, p[2..2 + Int(p[1])], []))
      else Message(AuthResponse(success, [], []))
  }

  function ParseConnect(p: seq<byte>): Parsed {
    if |p| < 17 then ParseError
    else
      var protocol := ByteProtocol(p[0]);
      var id: UUID := p[1..17];
      if protocol == TCP then
        var rest := p[17..];
        if |rest| < 1 || |rest| < 1 + Int(rest[0]) + 2 then ParseError
        else
          var n := Int(rest[0]);
          Message(Connect(protocol, rest[1..1 + n], U16(rest[1 + n], rest[1 + n + 1]), id,
                          |rest| > 1 + n + 2 && rest[1 + n + 2] != 0))
      else Message(Connect(protocol, [], 0, id, |p| > 17 && p[17] != 0))
  }

  function ParseConnectResponse(p: seq<byte>): Parsed {
    if |p| < 17 then ParseError
    else if p[0] != 0 then Message(ConnectResponse(true, [], p[1..17]))
    else if |p| < 18 || |p| < 18 + Int(p[17]) then ParseError
    else Message(ConnectResponse(false, p[18..18 + Int(p[17])], p[1..17]))
  }

  function SequenceOf(rest: seq<byte>): Uint64 {
    Pow256Values();
    if |rest| >= 8 then FromBE(rest[..8]) else 0
  }

  function ParseData(z: Zip, p: seq<byte>): Parsed {
    if |p| < 22 then ParseError
    else
      var protocol, id, compression := ByteProtocol(p[0]), p[1..17], p[17];
      match LongAt(p, 22)
      case Truncated => ParseError
      case BadSlice => OutOfRange
      case Piece(raw) =>
        var data := if compression == GZIP then z.inflate(raw) else Some(raw);
        if data.None? then ParseError
        else
          var rest := p[22 + |raw|..];
          if protocol == UDP then ParseUdp(id, data.value, compression, rest)
          else Message(Data(protocol, id, data.value, compression, [], 0, [], 0, SequenceOf(rest)))
  }

  function ParseUdp(id: UUID, data: seq<byte>, compression: byte, rest: seq<byte>): Parsed {
    if |rest| < 1 || |rest| < 1 + Int(rest[0]) + 2 + 1 then ParseError
    else
      var n := Int(rest[0]);
      var rest2 := rest[1 + n + 2..];
      if |rest2| < 1 + Int(rest2[0]) + 2 then ParseError
      else
        var k := Int(rest2[0]);
        Message(Data(UDP, id, data, compression,
                     rest[1..1 + n], U16(rest[1 + n], rest[1 + n + 1]),
                     rest2[1..1 + k], U16(rest2[1 + k], rest2[1 + k + 1]), SequenceOf(rest2[1 + k + 2..])))
  }

  function ParseDisconnect(p: seq<byte>): Parsed {
    if |p| < 16 then ParseError
    else if |p| > 16 then
      if |p| < 17 + Int(p[16]) then ParseError else Message(Disconnect(p[..16], p[17..17 + Int(p[16])]))
    else Message(Disconnect(p[..16], []))
  }

  function ParseConnector(p: seq<byte>): Parsed {
    if |p| < 17 then ParseError
    else
      var rest := p[16..];
      var n := Int(rest[0]);
      if |rest| < 1 + n + 1 || ByteOperation(rest[1 + n]) == [] then ParseError
      else Message(Connector(p[..16], rest[1..1 + n], ByteOperation(rest[1 + n])))
  }

  function ParseConnectorResponse(p: seq<byte>): Parsed {
    if |p| < 17 then ParseError
    else
      var success := p[16] != 0;
      if |p| > 17 then
        if |p| < 18 + Int(p[17]) then ParseError
        else if success then Message(ConnectorResponse(true, [], p[..16], p[18..18 + Int(p[17])]))
        else Message(ConnectorResponse(false, p[18..18 + Int(p[17])], p[..16], []))
      else if success then Message(ConnectorResponse(true, [], p[..16], []))
      else ParseError
  }

  function ParseChannelOpen(p: seq<byte>): Parsed {
    if |p| < 16 then ParseError else Message(ChannelOpen(p[..16], |p| > 16 && p[16] != 0))
  }

  function ParseSealed(p: seq<byte>): Parsed {
    if |p| < 20 then ParseError
    else
      match LongAt(p, 20)
      case Truncated => ParseError
      case BadSlice => OutOfRange
      case Piece(d) => Message(Sealed(p[..16], d))
  }

  function ParseWebData(p: seq<byte>): Parsed {
    if |p| < 21 then ParseError
    else
      match LongAt(p, 21)
      case Truncated => ParseError
      case BadSlice => OutOfRange
      case Piece(d) => Message(WebData(p[..16], d, p[16] % 2 != 0))
  }

  function ParseWebSocketFrame(p: seq<byte>): Parsed {
    if |p| < 21 || (p[16] != 1 && p[16] != 2) || FromBE(p[17..21]) != |p| - 21 then ParseError
    else Message(WebSocketFrame(p[..16], p[16], p[21..]))
  }

  function ParseJson(kind: byte, p: seq<byte>): Parsed {
    if |p| < 4 then ParseError
    else
      match LongAt(p, 4)
      case Truncated => ParseError
      case BadSlice => OutOfRange
      case Piece(d) => Message(Json(kind, d))
  }

  function ParseBody(z: Zip, t: byte, p: seq<byte>): Parsed {
    if t == 0x01 then ParseAuth(p)
    else if t == 0x02 then ParseAuthResponse(p)
    else if t == 0x03 then ParseConnect(p)
    else if t == 0x04 then ParseData(z, p)
    else if t == 0x05 then ParseConnectResponse(p)
    else if t == 0x06 then ParseDisconnect(p)
    else if t == 0x07 then ParseConnector(p)
    else if t == 0x08 then ParseConnectorResponse(p)
    else if t == 0x16 then ParseWebData(p)
    else if t == 0x19 then ParseWebSocketFrame(p)
    else if t == 0x1A then ParseChannelOpen(p)
    else if t == 0x1B then ParseSealed(p)
    else if JsonKind(t) then ParseJson(t, p)
    else Message(Unknown(t))
  }

  /** The parsed message, and the version byte the peer stamped. */
  function Parse(z: Zip, data: seq<byte>): (Parsed, byte) {
    if |data| < 2 then (ParseError, 0)
    else if !MajorSupported(data[0]) then (ParseError, data[0])
    else (ParseBody(z, data[1], data[2..]), data[0])
  }
}
