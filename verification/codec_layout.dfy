/** The bytes of every kind of message, written out: type bytes, flags, lengths
    and the order of the fields. Together with the round trips this fixes what
    a parser must make of them. */
module CodecLayout {
  import opened Bytes
  import opened Codec


  function Text(s: Str): seq<byte> { [|s| % 256] + s }

  function Flag(b: bool): byte { if b then 1 else 0 }

  /** The four length bytes of some data. */
  function Count(d: seq<byte>): seq<byte> {
    [|d| / 0x100_0000 % 256, |d| / 0x1_0000 % 256, |d| / 256 % 256, |d| % 256]
  }

  lemma AuthLayout(z: Zip, v: byte, token: Str, reverse: bool, instance: UUID)
    ensures Pack(z, Auth(token, reverse, instance), v) == Bytes([v, 0x01] + Text(token) + [Flag(reverse)] + instance)
  {
    assert [v, 0x01] + Payload(z, Auth(token, reverse, instance)) == [v, 0x01] + Text(token) + [Flag(reverse)] + instance;
  }

  /** A success carries its token if there is one, a failure its error. */
  lemma AuthResponseLayout(z: Zip, v: byte, error: Str, token: Str)
    ensures Pack(z, AuthResponse(true, error, token), v) == Bytes([v, 0x02, 1] + if token == [] then [] else Text(token))
    ensures Pack(z, AuthResponse(false, error, token), v) == Bytes([v, 0x02, 0] + Text(error))
  {
    assert [v, 0x02] + Payload(z, AuthResponse(true, error, token)) == [v, 0x02, 1] + if token == [] then [] else Text(token);
    assert [v, 0x02] + Payload(z, AuthResponse(false, error, token)) == [v, 0x02, 0] + Text(error);
  }

  lemma ConnectResponseLayout(z: Zip, v: byte, error: Str, id: UUID)
    ensures Pack(z, ConnectResponse(true, error, id), v) == Bytes([v, 0x05, 1] + id)
    ensures Pack(z, ConnectResponse(false, error, id), v) == Bytes([v, 0x05, 0] + id + Text(error))
  {
    assert [v, 0x05] + Payload(z, ConnectResponse(true, error, id)) == [v, 0x05, 1] + id;
    assert [v, 0x05] + Payload(z, ConnectResponse(false, error, id)) == [v, 0x05, 0] + id + Text(error);
  }

  lemma ConnectorResponseLayout(z: Zip, v: byte, error: Str, token: Str, id: UUID)
    ensures Pack(z, ConnectorResponse(true, error, id, token), v) == Bytes([v, 0x08] + id + [1] + if token == [] then [] else Text(token))
    ensures Pack(z, ConnectorResponse(false, error, id, token), v) == Bytes([v, 0x08] + id + [0] + Text(error))
  {
    assert [v, 0x08] + Payload(z, ConnectorResponse(true, error, id, token))
        == [v, 0x08] + id + [1] + if token == [] then [] else Text(token);
    assert [v, 0x08] + Payload(z, ConnectorResponse(false, error, id, token)) == [v, 0x08] + id + [0] + Text(error);
  }

  /** TCP is 1 and carries its destination; UDP is 2; anything else is 0. */
  lemma ConnectLayout(z: Zip, v: byte, protocol: Str, address: Str, port: int, id: UUID, resume: bool)
    ensures Pack(z, Connect(protocol, address, port, id, resume), v) == Bytes(
              [v, 0x03]
              + (if protocol == [116, 99, 112] then [1] + id + Text(address) + [port / 256 % 256, port % 256]
                 else if protocol == [117, 100, 112] then [2] + id else [0] + id)
              + if resume then [1] else [])
  {
    var m := Connect(protocol, address, port, id, resume);
    var end := if resume then [1] else [];
    if protocol == [116, 99, 112] {
      assert [v, 0x03] + Payload(z, m) == [v, 0x03] + ([1] + id + Text(address) + [port / 256 % 256, port % 256]) + end;
    } else if protocol == [117, 100, 112] {
      assert [v, 0x03] + Payload(z, m) == [v, 0x03] + ([2] + id) + end;
    } else {
      assert [v, 0x03] + Payload(z, m) == [v, 0x03] + ([0] + id) + end;
    }
  }

  /** The source and target of a UDP datagram. */
  function Peers(address: Str, port: int, target: Str, targetPort: int): seq<byte> {
    Text(address) + [port / 256 % 256, port % 256] + Text(target) + [targetPort / 256 % 256, targetPort % 256]
  }

  function ProtocolCode(protocol: Str): byte {
    if protocol == [116, 99, 112] then 1 else if protocol == [117, 100, 112] then 2 else 0
  }

  function DataTail(m: Message): seq<byte>
    requires m.Data?
  {
    (if m.protocol == [117, 100, 112] then Peers(m.address, m.port, m.targetAddr, m.targetPort) else [])
    + if m.sequence == 0 then [] else BE(m.sequence, 8)
  }

  lemma TailIs(m: Message)
    requires m.Data?
    ensures Endpoints(m) + (if m.sequence != 0 then BE(m.sequence, 8) else []) == DataTail(m)
  {
    if m.protocol == [117, 100, 112] {
      assert Endpoints(m) == Peers(m.address, m.port, m.targetAddr, m.targetPort);
    }
  }

  lemma DataJoined(a: seq<byte>, b: seq<byte>, c: seq<byte>, d: seq<byte>, e: seq<byte>, f: seq<byte>, g: seq<byte>)
    ensures a + ((b + c + d) + (e + f) + g) == (a + b) + c + d + e + f + g
  {
  }

  /** What a data message carries: compression 1 is gzip. */
  function Carried(z: Zip, m: Message): seq<byte>
    requires m.Data?
  {
    if m.compression == 1 then z.deflate(m.data) else m.data
  }

  /** A data message. A sequence number of zero is left out. */
  lemma DataLayout(z: Zip, v: byte, m: Message)
    requires m.Data?
    ensures Pack(z, m, v) == Bytes([v, 0x04] + [ProtocolCode(m.protocol)] + m.channelID + [m.compression]
                                   + Count(Carried(z, m)) + Carried(z, m) + DataTail(m))
  {
    var head, data := [ProtocolByte(m.protocol)] + m.channelID + [m.compression], Carried(z, m);
    BEFour(|data|);
    TailIs(m);
    assert Payload(z, m) == head + Long(data) + DataTail(m);
    DataJoined([v, 0x04], [ProtocolCode(m.protocol)], m.channelID, [m.compression], Count(data), data, DataTail(m));
  }

  /** "add" is 1 and "remove" is 2. */
  function OperationCode(operation: Str): byte {
    if operation == [97, 100, 100] then 1 else if operation == [114, 101, 109, 111, 118, 101] then 2 else 0
  }

  lemma ControlLayout(z: Zip, v: byte, id: UUID, error: Str, token: Str, operation: Str, resume: bool)
    ensures Pack(z, Disconnect(id, error), v) == Bytes([v, 0x06] + id + if error == [] then [] else Text(error))
    ensures Pack(z, Connector(id, token, operation), v) == Bytes([v, 0x07] + id + Text(token) + [OperationCode(operation)])
    ensures Pack(z, ChannelOpen(id, resume), v) == Bytes([v, 0x1A] + id + if resume then [1] else [])
  {
    assert [v, 0x06] + Payload(z, Disconnect(id, error)) == [v, 0x06] + id + if error == [] then [] else Text(error);
    assert [v, 0x07] + Payload(z, Connector(id, token, operation)) == [v, 0x07] + id + Text(token) + [OperationCode(operation)];
    assert [v, 0x1A] + Payload(z, ChannelOpen(id, resume)) == [v, 0x1A] + id + if resume then [1] else [];
  }

  lemma FrameLayout(z: Zip, v: byte, id: UUID, data: seq<byte>, end: bool, opcode: byte)
    ensures Pack(z, Sealed(id, data), v) == Bytes([v, 0x1B] + id + Count(data) + data)
    ensures Pack(z, WebData(id, data, end), v) == Bytes([v, 0x16] + id + [Flag(end)] + Count(data) + data)
    ensures Pack(z, WebSocketFrame(id, opcode, data), v) ==
              if opcode == 1 || opcode == 2 then Bytes([v, 0x19] + id + [opcode] + Count(data) + data) else PackError
  {
    BEFour(|data|);
    assert [v, 0x1B] + Payload(z, Sealed(id, data)) == [v, 0x1B] + id + Count(data) + data;
    assert [v, 0x16] + Payload(z, WebData(id, data, end)) == [v, 0x16] + id + [Flag(end)] + Count(data) + data;
    assert [v, 0x19] + Payload(z, WebSocketFrame(id, opcode, data)) == [v, 0x19] + id + [opcode] + Count(data) + data;
  }

  /** The type bytes of the messages with a JSON body; no others are packed. */
  lemma JsonLayout(z: Zip, v: byte, kind: byte, text: seq<byte>)
    ensures Pack(z, Json(kind, text), v) ==
              if 0x09 <= kind <= 0x15 || 0x17 <= kind <= 0x18 then Bytes([v, kind] + Count(text) + text) else PackError
    ensures Pack(z, Unknown(kind), v) == PackError
  {
    BEFour(|text|);
    assert [v, kind] + Payload(z, Json(kind, text)) == [v, kind] + Count(text) + text;
  }
}
