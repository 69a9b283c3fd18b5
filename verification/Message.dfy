// Wire format (src/UdcMessage.cpp, include/UdcMessage.h): serializers that write at fixed offsets
// of the shared buffer, and the set of datagrams they describe.

module Message {
  import opened Bytes

  const SIGNATURE_SIZE := 4
  const HEADER_SIZE := 5
  const CONNECTION_SIZE := 9
  const PINGPONG_SIZE := 9
  const RELIABLE_SIZE := 9

  const CONNECTION_REQUEST: byte := 0
  const CONNECTION_HANDSHAKE: byte := 1
  const PING: byte := 2
  const PONG: byte := 3
  const UNRELIABLE: byte := 4
  const RELIABLE_RESET: byte := 5
  const RELIABLE_0: byte := 6
  const RELIABLE_1: byte := 7
  const RELIABLE_HANDSHAKE_RESET: byte := 8
  const RELIABLE_HANDSHAKE_0: byte := 9
  const RELIABLE_HANDSHAKE_1: byte := 10

  type Signature = s: seq<byte> | |s| == 4 witness [0, 0, 0, 0]

  type Bit = x: int | 0 <= x <= 1

  function Flip(b: Bit): Bit {
    if b == 0 then 1 else 0
  }

  datatype Packet =
    | ConnectionRequest(endPointId: uint32)
    | ConnectionHandshake(endPointId: uint32)
    | Ping(stamp: uint32)
    | Pong(stamp: uint32)
    | Unreliable(data: seq<byte>)
    | ReliableReset(stamp: uint32)
    | Reliable(bit: Bit, stamp: uint32, data: seq<byte>)
    | HandshakeReset(stamp: uint32)
    | Handshake(bit: Bit, stamp: uint32)

  function Tag(p: Packet): byte {
    match p
    case ConnectionRequest(_) => CONNECTION_REQUEST
    case ConnectionHandshake(_) => CONNECTION_HANDSHAKE
    case Ping(_) => PING
    case Pong(_) => PONG
    case Unreliable(_) => UNRELIABLE
    case ReliableReset(_) => RELIABLE_RESET
    case Reliable(b, _, _) => if b == 0 then RELIABLE_0 else RELIABLE_1
    case HandshakeReset(_) => RELIABLE_HANDSHAKE_RESET
    case Handshake(b, _) => if b == 0 then RELIABLE_HANDSHAKE_0 else RELIABLE_HANDSHAKE_1
  }

  function Body(p: Packet): seq<byte> {
    match p
    case ConnectionRequest(id) => Encode32(id)
    case ConnectionHandshake(id) => Encode32(id)
    case Ping(t) => Encode32(t)
    case Pong(t) => Encode32(t)
    case Unreliable(data) => data
    case ReliableReset(t) => Encode32(t)
    case Reliable(_, t, data) => Encode32(t) + data
    case HandshakeReset(t) => Encode32(t)
    case Handshake(_, t) => Encode32(t)
  }

  /** The datagram a packet travels as: signature, id byte, body. */
  function Wire(signature: Signature, p: Packet): (b: seq<byte>)
    ensures |b| >= HEADER_SIZE && b[..4] == signature && b[4] == Tag(p) && b[5..] == Body(p)
  {
    signature + [Tag(p)] + Body(p)
  }

  /** The packet the receive switch acts on; None when the signature, the id byte or the size is refused. */
  function Parse(signature: Signature, b: seq<byte>): Option<Packet> {
    if |b| < HEADER_SIZE || b[..4] != signature then None
    else if b[4] == UNRELIABLE then Some(Unreliable(b[5..]))
    else if |b| < RELIABLE_SIZE then None
    else
      var word := Decode32(b[5..9]);
      if b[4] == RELIABLE_0 then Some(Reliable(0, word, b[9..]))
      else if b[4] == RELIABLE_1 then Some(Reliable(1, word, b[9..]))
      else if |b| != 9 then None
      else if b[4] == CONNECTION_REQUEST then Some(ConnectionRequest(word))
      else if b[4] == CONNECTION_HANDSHAKE then Some(ConnectionHandshake(word))
      else if b[4] == PING then Some(Ping(word))
      else if b[4] == PONG then Some(Pong(word))
      else if b[4] == RELIABLE_RESET then Some(ReliableReset(word))
      else if b[4] == RELIABLE_HANDSHAKE_RESET then Some(HandshakeReset(word))
      else if b[4] == RELIABLE_HANDSHAKE_0 then Some(Handshake(0, word))
      else if b[4] == RELIABLE_HANDSHAKE_1 then Some(Handshake(1, word))
      else None
  }

  lemma ParseWire(signature: Signature, p: Packet)
    ensures Parse(signature, Wire(signature, p)) == Some(p)
  {
    var b := Wire(signature, p);
    if !p.Unreliable? {
      var word := if p.ConnectionRequest? || p.ConnectionHandshake? then p.endPointId else p.stamp;
      assert b[5..9] == Body(p)[..4] == Encode32(word);
      DecodeEncode32(word);
      if p.Reliable? {
        assert b[9..] == Body(p)[4..] == p.data;
      }
    }
  }

  /** Nothing but the image of a packet is accepted: `Parse` is exactly the inverse of `Wire`. */
  lemma WireParse(signature: Signature, b: seq<byte>)
    requires Parse(signature, b).Some?
    ensures b == Wire(signature, Parse(signature, b).value)
  {
    var p := Parse(signature, b).value;
    assert b == b[..4] + [b[4]] + b[5..];
    if !p.Unreliable? {
      EncodeDecode32(b[5..9]);
      assert b[5..] == b[5..9] + b[9..];
    }
  }

  /** A datagram is accepted under one signature only. */
  lemma ForeignSignature(mine: Signature, theirs: Signature, p: Packet)
    ensures Parse(mine, Wire(theirs, p)) == if mine == theirs then Some(p) else None
  {
    if mine == theirs {
      ParseWire(mine, p);
    } else {
      assert Wire(theirs, p)[..4] == theirs;
    }
  }

  /** Every datagram, byte by byte: the signature, the number of the kind of message, the word from its lowest byte up,
      and the data. */
  lemma WireLayout(signature: Signature, w: seq<byte>, data: seq<byte>)
    requires |w| == 4
    ensures var word: uint32 := Decode32(w);
            && Wire(signature, ConnectionRequest(word)) == signature + [0] + w
            && Wire(signature, ConnectionHandshake(word)) == signature + [1] + w
            && Wire(signature, Ping(word)) == signature + [2] + w
            && Wire(signature, Pong(word)) == signature + [3] + w
            && Wire(signature, Unreliable(data)) == signature + [4] + data
            && Wire(signature, ReliableReset(word)) == signature + [5] + w
            && Wire(signature, Reliable(0, word, data)) == signature + [6] + (w + data)
            && Wire(signature, Reliable(1, word, data)) == signature + [7] + (w + data)
            && Wire(signature, HandshakeReset(word)) == signature + [8] + w
            && Wire(signature, Handshake(0, word)) == signature + [9] + w
            && Wire(signature, Handshake(1, word)) == signature + [10] + w
    ensures var w0: int, w1: int, w2: int, w3: int := w[0], w[1], w[2], w[3];
            Decode32(w) == w0 + 0x100 * w1 + 0x1_0000 * w2 + 0x100_0000 * w3
  {
    EncodeDecode32(w);
  }

  // ---- serializers: in-place writes ----

  method SerializeMsgSignature(buffer: array<byte>, signature: Signature)
    requires buffer.Length >= SIGNATURE_SIZE
    modifies buffer
    ensures buffer[..] == Overwrite(old(buffer[..]), 0, signature)
  {
    CopyInto(buffer, 0, signature);
  }

  method SerializeMsgId(buffer: array<byte>, msgId: byte)
    requires buffer.Length >= HEADER_SIZE
    modifies buffer
    ensures buffer[..] == Overwrite(old(buffer[..]), 4, [msgId])
  {
    CopyInto(buffer, SIGNATURE_SIZE, [msgId]);
  }

  /** `serializeEndPointId` and both `serializeTimeStamp`: a word behind the header. */
  method SerializeWord(buffer: array<byte>, word: uint32)
    requires buffer.Length >= CONNECTION_SIZE
    modifies buffer
    ensures buffer[..] == Overwrite(old(buffer[..]), 5, Encode32(word))
  {
    CopyInto(buffer, HEADER_SIZE, Encode32(word));
  }

  method SerializeUnreliableData(buffer: array<byte>, data: seq<byte>)
    requires HEADER_SIZE + |data| <= buffer.Length
    modifies buffer
    ensures buffer[..] == Overwrite(old(buffer[..]), 5, data)
  {
    CopyInto(buffer, HEADER_SIZE, data);
  }

  method SerializeReliableData(buffer: array<byte>, data: seq<byte>)
    requires RELIABLE_SIZE + |data| <= buffer.Length
    modifies buffer
    ensures buffer[..] == Overwrite(old(buffer[..]), 9, data)
  {
    CopyInto(buffer, RELIABLE_SIZE, data);
  }

  /** Signature, id byte and word of the message currently in the buffer. */
  method DeserializeMsgSignature(buffer: array<byte>) returns (signature: Signature)
    requires buffer.Length >= SIGNATURE_SIZE
    ensures signature == buffer[..4]
  {
    signature := buffer[..4];
  }

  method DeserializeWord(buffer: array<byte>) returns (word: uint32)
    requires buffer.Length >= CONNECTION_SIZE
    ensures Encode32(word) == buffer[5..9]
    ensures forall w: uint32 :: Encode32(w) == buffer[5..9] ==> word == w
  {
    word := Decode32(buffer[5..9]);
    EncodeDecode32(buffer[5..9]);
    forall w: uint32 | Encode32(w) == buffer[5..9] ensures word == w {
      DecodeEncode32(w);
    }
  }

  // ---- the writes together make the datagram ----

  /** The id byte and a word overwritten in place: the first nine bytes are a packet under whatever signature was
      resident. */
  lemma WordPacket(before: seq<byte>, p: Packet, word: uint32)
    requires |before| >= 9
    requires Body(p) == Encode32(word)
    ensures var after := Overwrite(Overwrite(before, 4, [Tag(p)]), 5, Encode32(word));
            after[..9] == Wire(before[..4], p) && after[..4] == before[..4]
  {
    OverwriteTake(before, 4, [Tag(p)]);
    var s1 := Overwrite(before, 4, [Tag(p)]);
    OverwriteTake(s1, 5, Encode32(word));
    var s2 := Overwrite(s1, 5, Encode32(word));
    assert s2[..4] == s2[..5][..4] == s1[..5][..4] == before[..4];
  }

  lemma ReliablePacket(before: seq<byte>, p: Packet)
    requires p.Reliable? && |before| >= 9 + |p.data|
    ensures var after := Overwrite(Overwrite(Overwrite(before, 4, [Tag(p)]), 5, Encode32(p.stamp)), 9, p.data);
            after[..9 + |p.data|] == Wire(before[..4], p) && after[..4] == before[..4]
  {
    OverwriteTake(before, 4, [Tag(p)]);
    var s1 := Overwrite(before, 4, [Tag(p)]);
    OverwriteTake(s1, 5, Encode32(p.stamp));
    var s2 := Overwrite(s1, 5, Encode32(p.stamp));
    OverwriteTake(s2, 9, p.data);
    var s3 := Overwrite(s2, 9, p.data);
    assert s3[..9 + |p.data|] == before[..4] + [Tag(p)] + (Encode32(p.stamp) + p.data);
    assert s3[..4] == s3[..9][..4] == s2[..5][..4] == s1[..5][..4] == before[..4];
  }

  lemma UnreliablePacket(before: seq<byte>, p: Packet)
    requires p.Unreliable? && |before| >= 5 + |p.data|
    ensures var after := Overwrite(Overwrite(before, 4, [Tag(p)]), 5, p.data);
            after[..5 + |p.data|] == Wire(before[..4], p) && after[..4] == before[..4]
  {
    OverwriteTake(before, 4, [Tag(p)]);
    var s1 := Overwrite(before, 4, [Tag(p)]);
    OverwriteTake(s1, 5, p.data);
    var s2 := Overwrite(s1, 5, p.data);
    assert s2[..4] == s2[..5][..4] == s1[..5][..4] == before[..4];
  }

  /** Overwriting only the id byte of a received datagram leaves its word in place: the reply carries the same word. */
  lemma ReplyPacket(before: seq<byte>, p: Packet, word: uint32)
    requires |before| >= 9
    requires Encode32(word) == before[5..9] && Body(p) == Encode32(word)
    ensures var after := Overwrite(before, 4, [Tag(p)]);
            after[..9] == Wire(before[..4], p) && after[..4] == before[..4] && after[5..] == before[5..]
  {
  }

  // ---- the message writers: sequences of serializer calls on the shared buffer ----

  /** Id byte and word: REQUEST, PING, RESET. */
  method WriteWord(buffer: array<byte>, p: Packet, word: uint32)
    requires buffer.Length >= CONNECTION_SIZE && Body(p) == Encode32(word)
    modifies buffer
    ensures buffer[..9] == Wire(old(buffer[..4]), p) && buffer[..4] == old(buffer[..4])
  {
    ghost var before := buffer[..];
    SerializeMsgId(buffer, Tag(p));
    SerializeWord(buffer, word);
    WordPacket(before, p, word);
    assert before[..4] == old(buffer[..4]);
    assert buffer[..9] == buffer[..][..9] && buffer[..4] == buffer[..][..4];
  }

  method WriteReliable(buffer: array<byte>, p: Packet)
    requires p.Reliable? && RELIABLE_SIZE + |p.data| <= buffer.Length
    modifies buffer
    ensures buffer[..9 + |p.data|] == Wire(old(buffer[..4]), p) && buffer[..4] == old(buffer[..4])
  {
    ghost var before := buffer[..];
    SerializeMsgId(buffer, if p.bit == 0 then RELIABLE_0 else RELIABLE_1);
    SerializeWord(buffer, p.stamp);
    SerializeReliableData(buffer, p.data);
    ReliablePacket(before, p);
    assert before[..4] == old(buffer[..4]);
    assert buffer[..9 + |p.data|] == buffer[..][..9 + |p.data|] && buffer[..4] == buffer[..][..4];
  }

  method WriteUnreliable(buffer: array<byte>, p: Packet)
    requires p.Unreliable? && HEADER_SIZE + |p.data| <= buffer.Length
    modifies buffer
    ensures buffer[..5 + |p.data|] == Wire(old(buffer[..4]), p) && buffer[..4] == old(buffer[..4])
  {
    ghost var before := buffer[..];
    SerializeMsgId(buffer, UNRELIABLE);
    SerializeUnreliableData(buffer, p.data);
    UnreliablePacket(before, p);
    assert before[..4] == old(buffer[..4]);
    assert buffer[..5 + |p.data|] == buffer[..][..5 + |p.data|] && buffer[..4] == buffer[..][..4];
  }

  /** A reply: only the id byte of the received message is overwritten. */
  method WriteReply(buffer: array<byte>, msgId: byte, ghost p: Packet, ghost word: uint32)
    requires msgId == Tag(p)
    requires buffer.Length >= RELIABLE_SIZE && Encode32(word) == buffer[5..9] && Body(p) == Encode32(word)
    modifies buffer
    ensures buffer[..9] == Wire(old(buffer[..4]), p) && buffer[..4] == old(buffer[..4])
    ensures buffer[5..] == old(buffer[5..])
  {
    ghost var before := buffer[..];
    assert before[5..9] == buffer[5..9];
    SerializeMsgId(buffer, msgId);
    ReplyPacket(before, p, word);
    assert before[..4] == old(buffer[..4]) && before[5..] == old(buffer[5..]);
    assert buffer[..9] == buffer[..][..9] && buffer[..4] == buffer[..][..4] && buffer[5..] == buffer[..][5..];
  }
}
