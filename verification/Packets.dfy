/**
 The Wisp frames of src/packets.h: classes that fill byte buffers in place, proved against a pure
 encoding, and the round trips of that encoding. Multi-byte fields are little-endian, as on the
 machines the server is built for.
 */
module Packets {

  type byte = x: int | 0 <= x < 256
  type u16 = x: int | 0 <= x < 0x1_0000
  type u32 = x: int | 0 <= x < 0x1_0000_0000

  // --- Little-endian fields ----------------------------------------------------------------

  function Le16(x: u16): seq<byte> {
    [x % 256, x / 256]
  }

  function Le32(x: u32): seq<byte> {
    [x % 256, x / 256 % 256, x / 256 / 256 % 256, x / 256 / 256 / 256]
  }

  function FromLe16(b: seq<byte>): u16
    requires |b| == 2
  {
    b[0] as int + 256 * b[1] as int
  }

  function FromLe32(b: seq<byte>): u32
    requires |b| == 4
  {
    b[0] as int + 256 * (b[1] as int + 256 * (b[2] as int + 256 * b[3] as int))
  }

  /** The lowest byte of a number, and the rest of it. */
  lemma Digit(low: byte, rest: nat)
    ensures (low + 256 * rest) % 256 == low && (low + 256 * rest) / 256 == rest
  {
  }

  lemma Le32RoundTrip(x: u32, b: seq<byte>)
    requires |b| == 4
    ensures FromLe32(Le32(x)) == x
    ensures Le32(FromLe32(b)) == b
  {
    Digit(b[0], b[1] as int + 256 * (b[2] as int + 256 * b[3] as int));
    Digit(b[1], b[2] as int + 256 * b[3] as int);
    Digit(b[2], b[3] as int);
  }

  lemma Le16RoundTrip(x: u16, b: seq<byte>)
    requires |b| == 2
    ensures FromLe16(Le16(x)) == x
    ensures Le16(FromLe16(b)) == b
  {
  }

  // --- Memory ------------------------------------------------------------------------------

  method StoreU32(dst: array<byte>, at: nat, x: u32)
    requires at + 4 <= dst.Length
    modifies dst
    ensures dst[..] == old(dst[..at]) + Le32(x) + old(dst[at + 4..])
  {
    dst[at], dst[at + 1] := x % 256, x / 256 % 256;
    dst[at + 2], dst[at + 3] := x / 256 / 256 % 256, x / 256 / 256 / 256;
  }

  method MemCpy(dst: array<byte>, at: nat, src: array<byte>, from: nat, len: nat)
    requires dst != src && at + len <= dst.Length && from + len <= src.Length
    modifies dst
    ensures dst[..] == old(dst[..at]) + src[from..from + len] + old(dst[at + len..])
  {
    forall i | 0 <= i < len {
      dst[at + i] := src[from + i];
    }
  }

  // --- The generic frame -------------------------------------------------------------------

  datatype Wisp = Wisp(packetType: byte, streamId: u32, data: seq<byte>)

  function Encode(p: Wisp): seq<byte> {
    [p.packetType] + Le32(p.streamId) + p.data
  }

  /** The parser reads five bytes before it looks at a length. */
  function Decode(b: seq<byte>): Wisp
    requires |b| >= 5
  {
    Wisp(b[0], FromLe32(b[1..5]), b[5..])
  }

  class WispPacket {
    var packetType: byte
    var streamId: u32
    var data: array<byte>
    var dataLen: nat

    ghost predicate Valid()
      reads this
    {
      dataLen == data.Length
    }

    ghost function View(): Wisp
      requires Valid()
      reads this, data
    {
      Wisp(packetType, streamId, data[..])
    }

    constructor Parse(src: array<byte>)
      requires src.Length >= 5
      ensures Valid() && fresh(data) && View() == Decode(src[..])
    {
      packetType := src[0];
      streamId := FromLe32(src[1..5]);
      dataLen := src.Length - 5;
      var buffer := new byte[src.Length - 5];
      data := buffer;
      new;
      MemCpy(data, 0, src, 5, dataLen);
      assert src[..][1..5] == src[1..5] && src[..][5..] == src[5..src.Length];
    }

    constructor Make(packetType: byte, streamId: u32, src: array<byte>)
      ensures Valid() && fresh(data) && View() == Wisp(packetType, streamId, src[..])
    {
      this.packetType, this.streamId, dataLen := packetType, streamId, src.Length;
      var buffer := new byte[src.Length];
      data := buffer;
      new;
      MemCpy(data, 0, src, 0, dataLen);
    }

    method Serialize() returns (build: array<byte>)
      requires Valid()
      ensures fresh(build) && build[..] == Encode(View())
    {
      var buildSize := 5 + dataLen;
      build := new byte[buildSize];
      build[0] := packetType;
      StoreU32(build, 1, streamId);
      MemCpy(build, buildSize - dataLen, data, 0, dataLen);
    }
  }

  /** Parsing undoes serializing, for every frame. */
  lemma DecodeEncode(p: Wisp)
    ensures |Encode(p)| >= 5 && Decode(Encode(p)) == p
  {
    Le32RoundTrip(p.streamId, Le32(p.streamId));
    assert Encode(p)[1..5] == Le32(p.streamId);
    assert Encode(p)[5..] == p.data;
  }

  /** Serializing undoes parsing, for every buffer the parser may read. */
  lemma EncodeDecode(b: seq<byte>)
    requires |b| >= 5
    ensures Encode(Decode(b)) == b
  {
    Le32RoundTrip(0, b[1..5]);
    assert b == [b[0]] + b[1..5] + b[5..];
  }

  /** The bytes of a frame, one by one: the type, the stream id from its lowest byte up, the payload. */
  lemma FrameBytes(p: Wisp)
    ensures var b := Encode(p);
            && |b| == 5 + |p.data| && b[0] == p.packetType
            && p.streamId == b[1] as int + 256 * (b[2] as int + 256 * (b[3] as int + 256 * b[4] as int))
            && forall i :: 0 <= i < |p.data| ==> b[5 + i] == p.data[i]
  {
    var b := Encode(p);
    Le32RoundTrip(p.streamId, Le32(p.streamId));
    assert b[1..5] == Le32(p.streamId);
  }

  /** A parsed frame, byte by byte. */
  lemma ParsedBytes(kind: byte, a: byte, b: byte, c: byte, d: byte, data: seq<byte>)
    ensures Decode([kind, a, b, c, d] + data)
         == Wisp(kind, a as int + 256 * (b as int + 256 * (c as int + 256 * d as int)), data)
  {
    var bytes := [kind, a, b, c, d] + data;
    assert bytes[1..5] == [a, b, c, d] && bytes[5..] == data;
  }

  // --- What the server sends ---------------------------------------------------------------

  const PACKET_CONNECT: byte := 0x01
  const PACKET_DATA: byte := 0x02
  const PACKET_CONTINUE: byte := 0x03
  const PACKET_CLOSE: byte := 0x04
  const PACKET_INFO: byte := 0x05

  datatype Frame =
    | Data(id: u32, payload: seq<byte>)
    | Continue(id: u32, remaining: u32)
    | Close(id: u32, reason: byte)
    | Other(id: u32)

  /** `send_data`, `send_continue` and `send_close`: a payload packet nested in a frame. */
  function Wire(f: Frame): seq<byte>
    requires !f.Other?
  {
    match f
    case Data(id, payload) => Encode(Wisp(PACKET_DATA, id, payload))
    case Continue(id, remaining) => Encode(Wisp(PACKET_CONTINUE, id, Le32(remaining)))
    case Close(id, reason) => Encode(Wisp(PACKET_CLOSE, id, [reason]))
  }

  /** Reading a message back with the parsing constructors. */
  function Read(b: seq<byte>): Frame
    requires |b| >= 5
  {
    var p := Decode(b);
    if p.packetType == PACKET_DATA then Data(p.streamId, p.data)
    else if p.packetType == PACKET_CONTINUE && |p.data| >= 4 then Continue(p.streamId, FromLe32(p.data[..4]))
    else if p.packetType == PACKET_CLOSE && |p.data| >= 1 then Close(p.streamId, p.data[0])
    else Other(p.streamId)
  }

  /** The round trip composes through the nested packets, so no two frames share a message. */
  lemma ReadWire(f: Frame)
    requires !f.Other?
    ensures |Wire(f)| >= 5 && Read(Wire(f)) == f
  {
    match f
    case Data(id, payload) => DecodeEncode(Wisp(PACKET_DATA, id, payload));
    case Continue(id, remaining) =>
      DecodeEncode(Wisp(PACKET_CONTINUE, id, Le32(remaining)));
      Le32RoundTrip(remaining, Le32(remaining));
      assert Le32(remaining)[..4] == Le32(remaining);
    case Close(id, reason) => DecodeEncode(Wisp(PACKET_CLOSE, id, [reason]));
  }

  /** The type and payload bytes of what the server sends. */
  lemma WireBytes(id: u32, payload: seq<byte>, remaining: u32, reason: byte)
    ensures Wire(Data(id, payload)) == Encode(Wisp(0x02, id, payload))
    ensures Wire(Close(id, reason)) == Encode(Wisp(0x04, id, [reason]))
    ensures var b := Wire(Continue(id, remaining));
            && |b| == 9 && b[0] == 0x03
            && remaining == b[5] as int + 256 * (b[6] as int + 256 * (b[7] as int + 256 * b[8] as int))
  {
    var b := Wire(Continue(id, remaining));
    Le32RoundTrip(remaining, Le32(remaining));
    assert b[5..] == Le32(remaining);
  }

  /** `send_continue` in place: a four-byte buffer nested in a serialized frame. */
  method SendContinue(remaining: u32, id: u32) returns (message: array<byte>)
    ensures fresh(message) && message[..] == Wire(Continue(id, remaining))
  {
    var payload := new byte[4];
    StoreU32(payload, 0, remaining);
    assert payload[..] == Le32(remaining);
    var packet := new WispPacket.Make(PACKET_CONTINUE, id, payload);
    message := packet.Serialize();
  }

  method SendClose(reason: byte, id: u32) returns (message: array<byte>)
    ensures fresh(message) && message[..] == Wire(Close(id, reason))
  {
    var payload := new byte[1];
    payload[0] := reason;
    assert payload[..] == [reason];
    var packet := new WispPacket.Make(PACKET_CLOSE, id, payload);
    message := packet.Serialize();
  }

  // --- Information packets -----------------------------------------------------------------

  datatype Info = Info(major: byte, minor: byte, extensions: seq<byte>)

  function EncodeInfo(p: Info): seq<byte> {
    [p.major, p.minor] + p.extensions
  }

  function DecodeInfo(b: seq<byte>): Info
    requires |b| >= 2
  {
    Info(b[0], b[1], b[2..])
  }

  lemma InfoRoundTrip(p: Info, b: seq<byte>)
    requires |b| >= 2
    ensures DecodeInfo(EncodeInfo(p)) == p
    ensures EncodeInfo(DecodeInfo(b)) == b
  {
    assert b == [b[0], b[1]] + b[2..];
    assert EncodeInfo(p)[2..] == p.extensions;
  }

  lemma InfoBytes(major: byte, minor: byte, extensions: seq<byte>)
    ensures DecodeInfo([major, minor] + extensions) == Info(major, minor, extensions)
  {
    assert ([major, minor] + extensions)[2..] == extensions;
  }

  // --- Connect packets ---------------------------------------------------------------------

  datatype ConnectFields = ConnectFields(streamType: byte, port: u16, hostname: seq<byte>)

  function DecodeConnect(b: seq<byte>): ConnectFields
    requires |b| >= 3
  {
    ConnectFields(b[0], FromLe16(b[1..3]), b[3..] + if b[|b| - 1] != 0 then [0] else [])
  }

  /** What a client sends for a hostname. */
  function EncodeConnect(streamType: byte, port: u16, hostname: seq<byte>): seq<byte> {
    [streamType] + Le16(port) + hostname
  }

  class ConnectPacket {
    var streamType: byte
    var destinationPort: u16
    var destinationHostname: array<byte>
    var destinationHostnameLen: nat

    ghost function View(): ConnectFields
      reads this, destinationHostname
    {
      ConnectFields(streamType, destinationPort, destinationHostname[..])
    }

    constructor Parse(src: array<byte>)
      requires src.Length >= 3
      ensures fresh(destinationHostname) && destinationHostnameLen == destinationHostname.Length
      ensures View() == DecodeConnect(src[..])
    {
      streamType := src[0];
      destinationPort := FromLe16(src[1..3]);
      var len := src.Length - 3;
      if src[src.Length - 1] != 0 {
        len := len + 1;
      }
      var hostname := new byte[len];
      if src[src.Length - 1] != 0 {
        hostname[len - 1] := 0;
      }
      MemCpy(hostname, 0, src, 3, src.Length - 3);
      destinationHostname, destinationHostnameLen := hostname, len;
      assert src[..][1..3] == src[1..3] && src[..][3..] == src[3..src.Length];
    }
  }

  predicate Terminated(hostname: seq<byte>) {
    hostname != [] && hostname[|hostname| - 1] == 0
  }

  /** What C code sees of a terminated buffer. */
  function CString(hostname: seq<byte>): seq<byte> {
    if hostname == [] || hostname[0] == 0 then [] else [hostname[0]] + CString(hostname[1..])
  }

  /** A parsed CONNECT payload, byte by byte: the port's low byte comes first. */
  lemma ConnectBytes(kind: byte, low: byte, high: byte, h: seq<byte>)
    ensures var fields := DecodeConnect([kind, low, high] + h);
            && fields.streamType == kind && fields.port == low as int + 256 * high as int
            && h <= fields.hostname
  {
    var b := [kind, low, high] + h;
    assert b[1..3] == [low, high] && b[3..] == h;
  }

  /** The hostname handed to the resolver is terminated exactly when the packet is longer than three
      bytes or its third byte is not zero; a three-byte packet that ends in zero leaves it empty. */
  lemma HostnameTerminated(b: seq<byte>)
    requires |b| >= 3
    ensures Terminated(DecodeConnect(b).hostname) <==> |b| > 3 || b[2] != 0
    ensures |DecodeConnect(b).hostname| - (|b| - 3) == if b[|b| - 1] != 0 then 1 else 0
  {
    var h := DecodeConnect(b).hostname;
    if |b| > 3 {
      assert b[3..][|b| - 4] == b[|b| - 1];
    }
  }

  lemma {:induction false} CStringAppend(h: seq<byte>)
    ensures CString(h + [0]) == CString(h)
  {
    if h == [] || h[0] == 0 {
    } else {
      assert (h + [0])[1..] == h[1..] + [0];
      CStringAppend(h[1..]);
    }
  }

  lemma {:induction false} CStringWhole(h: seq<byte>)
    requires 0 !in h
    ensures CString(h) == h
  {
    if h != [] {
      CStringWhole(h[1..]);
    }
  }

  /** Terminated or not on the wire, the server connects to the hostname that the client encoded. */
  lemma ConnectRoundTrip(streamType: byte, port: u16, hostname: seq<byte>)
    requires 0 !in hostname && hostname != []
    ensures forall end: seq<byte> :: end == [] || end == [0] ==>
              var fields := DecodeConnect(EncodeConnect(streamType, port, hostname + end));
              fields == ConnectFields(streamType, port, hostname + [0]) && CString(fields.hostname) == hostname
  {
    CStringAppend(hostname);
    CStringWhole(hostname);
    Le16RoundTrip(port, Le16(port));
    forall end: seq<byte> | end == [] || end == [0]
      ensures DecodeConnect(EncodeConnect(streamType, port, hostname + end))
                == ConnectFields(streamType, port, hostname + [0])
    {
      var b := EncodeConnect(streamType, port, hostname + end);
      assert b[1..3] == Le16(port);
      assert b[3..] == hostname + end;
      assert hostname[|hostname| - 1] != 0;
    }
  }
}
