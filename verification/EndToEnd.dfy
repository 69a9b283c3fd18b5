// From one server's caller, through bytes, to the other's: payloads and ping times. A payload given to a send call is
// what the receiving server hands over, exactly when signatures and entries allow it; and a ping's time stamp comes
// back with the answer, so that the reported status is the time that really passed, modulo 2^32.

module EndToEnd {
  import opened Bytes
  import opened Message
  import opened Client
  import opened ServerSpec
  import opened LinkReply

  // ---- payloads ----

  /** An accepted unreliable message, received whole by any server, is handed over exactly if the buffer it was built
      in began with the receiver's signature; nothing else of the receiver changes. */
  lemma UnreliableRoundTrip<R>(a: Server<R>, id: uint32, data: seq<byte>, b: Server<R>, from: Address, time: int)
    requires WF(a) && WF(b) && |data| < 0x1_0000_0000 && TestHolds(a.bufferSize, HEADER_SIZE, |data|)
    requires SendUnreliable(a, id, data).1 && a.heap[a.byId[id]].connected
    ensures var t := SendUnreliable(a, id, data).0;
            && |t.outbox| == |a.outbox| + 1 && t.outbox[|a.outbox|].address == a.heap[a.byId[id]].outgoing
            && |t.outbox[|a.outbox|].bytes| <= a.bufferSize
            && var o := HandleDatagram(b, Datagram(from, t.outbox[|a.outbox|].bytes), time);
               && o.event == (if a.prefix == b.signature then Some(ReceiveMessage(from, HEADER_SIZE, data)) else None)
               && o.s == b.(prefix := b.signature)
  {
    var raw := Wire(a.prefix, Unreliable(data));
    ForeignSignature(b.signature, a.prefix, Unreliable(data));
    assert Land(b.prefix, raw) == a.prefix;
  }

  /** The datagram of one pass over a client whose front message is due. */
  lemma FrontIsSent<R>(a: Server<R>, id: uint32, sent: int)
    requires WF(a) && id in a.byId
    requires var c := a.heap[a.byId[id]]; c.queue != [] && c.reliableState != -1 && !NeedsReliableReset(c, sent)
    ensures var c := a.heap[a.byId[id]];
            var t := UpdateClient(a, id, sent).s;
            && |t.outbox| > |a.outbox| && t.outbox[..|a.outbox|] == a.outbox
            && t.outbox[|a.outbox|]
               == Datagram(c.outgoing, Wire(a.prefix, Reliable(c.reliableState, Low32(sent), c.queue[0])))
            && t.heap[a.byId[id]].queue == c.queue
  {
    UpdateClientIsPoll(a, id, sent);
  }

  /** The front message of a queue, sent by one pass and received whole, is handed over exactly if the receiver's entry
      is absent or the sender's bit; the message stays queued until the acknowledgement, which is always sent. */
  lemma ReliableRoundTrip<R>(a: Server<R>, id: uint32, sent: int, b: Server<R>, from: Address, time: int)
    requires WF(a) && WF(b) && id in a.byId && a.prefix == b.signature
    requires var c := a.heap[a.byId[id]]; c.queue != [] && c.reliableState != -1 && !NeedsReliableReset(c, sent)
    ensures var c := a.heap[a.byId[id]];
            var t := UpdateClient(a, id, sent).s;
            && |t.outbox| > |a.outbox| && t.heap[a.byId[id]].queue == c.queue
            && |t.outbox[|a.outbox|].bytes| <= a.bufferSize
            && var o := HandleDatagram(b, Datagram(from, t.outbox[|a.outbox|].bytes), time);
               && o.event == (if EntryOf(b.reliableStates, from) in {None, Some(c.reliableState)}
                              then Some(ReceiveMessage(from, RELIABLE_SIZE, c.queue[0])) else None)
               && o.s.reliableStates == b.reliableStates[from := Flip(c.reliableState)]
               && o.s.outbox == b.outbox + [Datagram(from, Wire(b.signature, Handshake(c.reliableState, Low32(sent))))]
  {
    FrontIsSent(a, id, sent);
    var c := a.heap[a.byId[id]];
    var p := Reliable(c.reliableState, Low32(sent), c.queue[0]);
    ParseWire(b.signature, p);
    HandleDatagramIs(b, Datagram(from, Wire(a.prefix, p)), time);
  }

  // ---- connections ----

  /** A request is answered by any server, in any state, with the id it carries. */
  lemma RequestAnswered<R>(b: Server<R>, from: Address, id: uint32, time: int)
    requires WF(b)
    ensures HandleDatagram(b, Datagram(from, Wire(b.signature, ConnectionRequest(id))), time).s.outbox
            == b.outbox + [Datagram(from, Wire(b.signature, ConnectionHandshake(id)))]
  {
    ParseWire(b.signature, ConnectionRequest(id));
    HandleDatagramIs(b, Datagram(from, Wire(b.signature, ConnectionRequest(id))), time);
  }

  /** And the answer completes the connection if and only if the endpoint is the first one waiting and the address is
      not taken. */
  lemma HandshakeCompletes<R>(a: Server<R>, from: Address, id: uint32, time: int)
    requires WF(a)
    ensures HandleDatagram(a, Datagram(from, Wire(a.signature, ConnectionHandshake(id))), time).event
            == if a.pending != [] && a.heap[a.pending[0]].id == id && from !in a.byAddress
               then Some(ConnectionSuccess(id)) else None
  {
    ParseWire(a.signature, ConnectionHandshake(id));
    HandleDatagramIs(a, Datagram(from, Wire(a.signature, ConnectionHandshake(id))), time);
  }

  /** A connection is made: whatever datagram a server adds to its outbox on a request of A's, received by A in any
      later state in which the endpoint is the first one waiting, is its SUCCESS, unless the address is taken. */
  lemma ConnectRoundTrip<R>(b: Server<R>, addressA: Address, id: uint32, timeB: int, answer: seq<byte>,
          later: Server<R>, from: Address, received: int)
    requires WF(b) && WF(later) && later.signature == b.signature
    requires later.pending != [] && later.heap[later.pending[0]].id == id
    requires HandleDatagram(b, Datagram(addressA, Wire(b.signature, ConnectionRequest(id))), timeB).s.outbox
             == b.outbox + [Datagram(addressA, answer)]
    ensures HandleDatagram(later, Datagram(from, answer), received).event == Some(ConnectionSuccess(id))
            <==> from !in later.byAddress
  {
    RequestAnswered(b, addressA, id, timeB);
    SameLast(b.outbox, Datagram(addressA, answer), Datagram(addressA, Wire(b.signature, ConnectionHandshake(id))));
    HandshakeCompletes(later, from, id, received);
  }

  // ---- ping times ----

  /** Everything a pass sends carries the low 32 bits of its time, and the receiver can answer it. */
  lemma PollStamps(c: ClientState, time: int)
    ensures forall p <- Poll(c, time).1 :: (p.Ping? || p.Reliable? || p.ReliableReset?) && p.stamp == Low32(time)
  {
  }

  /** The answer to a packet carries its stamp, whatever state the answering server is in. */
  lemma AnswerEchoes<R>(b: Server<R>, from: Address, p: Packet, time: int)
    requires WF(b) && (p.Ping? || p.Reliable? || p.ReliableReset?)
    ensures var o := HandleDatagram(b, Datagram(from, Wire(b.signature, p)), time);
            && o.s.outbox == b.outbox + [Datagram(from, Wire(b.signature, Answer(p)))]
            && (Answer(p).Pong? || Answer(p).Handshake? || Answer(p).HandshakeReset?) && Answer(p).stamp == p.stamp
  {
    ParseWire(b.signature, p);
    HandleDatagramIs(b, Datagram(from, Wire(b.signature, p)), time);
  }

  lemma AppendIndex<T>(s: seq<T>, t: seq<T>, i: nat)
    requires i < |t|
    ensures (s + t)[|s| + i] == t[i]
  {
  }

  lemma PassAppends<R>(a: Server<R>, id: uint32, sent: int)
    requires WF(a) && id in a.byId
    ensures var c := a.heap[a.byId[id]];
            UpdateClient(a, id, sent).s.outbox == a.outbox + Datagrams(a.prefix, c.outgoing, Poll(c, sent).1)
  {
    UpdateClientIsPoll(a, id, sent);
    Client.PollKeeps(a.heap[a.byId[id]], sent);
  }

  lemma PassSends<R>(a: Server<R>, id: uint32, sent: int, i: nat)
    requires WF(a) && id in a.byId && i < |Poll(a.heap[a.byId[id]], sent).1|
    ensures var c := a.heap[a.byId[id]];
            var sentOut := UpdateClient(a, id, sent).s.outbox;
            |a.outbox| + i < |sentOut| && sentOut[|a.outbox| + i]
                == Datagram(c.outgoing, Wire(a.prefix, Poll(c, sent).1[i]))
  {
    var c := a.heap[a.byId[id]];
    PassAppends(a, id, sent);
    AppendIndex(a.outbox, Datagrams(a.prefix, c.outgoing, Poll(c, sent).1), i);
  }

  /** Packet `i` of a pass of A at `sent` is answered by B, in any state and whatever its clock, with the stamp it
      came with. */
  lemma PassAnswered<R>(a: Server<R>, id: uint32, sent: int, i: nat, b: Server<R>, addressA: Address, time: int)
    returns (p: Packet)
    requires WF(a) && WF(b) && id in a.byId && a.prefix == b.signature
    requires i < |Poll(a.heap[a.byId[id]], sent).1|
    ensures |a.outbox| + i < |UpdateClient(a, id, sent).s.outbox|
    ensures var raw := UpdateClient(a, id, sent).s.outbox[|a.outbox| + i].bytes;
            HandleDatagram(b, Datagram(addressA, raw), time).s.outbox
                == b.outbox + [Datagram(addressA, Wire(b.signature, p))]
    ensures (p.Pong? || p.Handshake? || p.HandshakeReset?) && p.stamp == Low32(sent)
  {
    var c := a.heap[a.byId[id]];
    PassSends(a, id, sent, i);
    PollStamps(c, sent);
    assert Poll(c, sent).1[i] in Poll(c, sent).1;
    AnswerEchoes(b, addressA, Poll(c, sent).1[i], time);
    p := Answer(Poll(c, sent).1[i]);
  }

  /** The status of an endpoint after one more datagram was handled. */
  function StatusAfter<R>(s: Server<R>, d: Datagram, time: int, id: uint32): Option<uint32>
    requires WF(s)
  {
    HandleDatagramWF(s, d, time);
    GetStatus(HandleDatagram(s, d, time).s, id)
  }

  /** A pong or reliable handshake from a connected client sets its ping and its flag. */
  lemma StatusAfterPacket<R>(c: Server<R>, id: uint32, from: Address, p: Packet, received: int)
    requires WF(c) && from in c.byAddress && id in c.byId && c.byId[id] == c.byAddress[from]
    requires p.Pong? || p.Handshake? || p.HandshakeReset?
    ensures WF(HandlePacket(c, from, p, received).s)
    ensures GetStatus(HandlePacket(c, from, p, received).s, id)
            == if p.stamp <= received then Some(Low32(received - p.stamp)) else GetStatus(c, id)
  {
    HandlePacketWF(c, from, p, received);
    if p.Pong? {
      StatusAfterPong(c, id, from, p.stamp, received);
    } else {
      RelevantIsHandshake(c, from, p, received);
      StatusAfterHandshake(c, id, from, if p.HandshakeReset? then -1 else p.bit, p.stamp, received);
    }
  }

  lemma StatusAfterPong<R>(c: Server<R>, id: uint32, from: Address, stamp: uint32, received: int)
    requires WF(c) && from in c.byAddress && id in c.byId && c.byId[id] == c.byAddress[from]
    ensures WF(AcceptPong(c, from, stamp, received).s)
    ensures GetStatus(AcceptPong(c, from, stamp, received).s, id)
            == if stamp <= received then Some(Low32(received - stamp)) else GetStatus(c, id)
  {
    AcceptPongWF(c, from, stamp, received);
  }

  lemma StatusAfterHandshake<R>(c: Server<R>, id: uint32, from: Address, state: ReliableState, stamp: uint32,
          received: int)
    requires WF(c) && from in c.byAddress && id in c.byId && c.byId[id] == c.byAddress[from]
    ensures WF(AcceptReliableHandshake(c, from, state, stamp, received).s)
    ensures GetStatus(AcceptReliableHandshake(c, from, state, stamp, received).s, id)
            == if stamp <= received then Some(Low32(received - stamp)) else GetStatus(c, id)
  {
    AcceptReliableHandshakeWF(c, from, state, stamp, received);
  }

  /** A pong or reliable handshake stamped with the low bits of `sent`: the status is the true difference modulo
      2^32. */
  lemma StatusAfterAnswer<R>(c: Server<R>, id: uint32, from: Address, p: Packet, sent: int, received: int)
    requires WF(c) && from in c.byAddress && id in c.byId && c.byId[id] == c.byAddress[from]
    requires (p.Pong? || p.Handshake? || p.HandshakeReset?) && p.stamp == Low32(sent)
    ensures StatusAfter(c, Datagram(from, Wire(c.signature, p)), received, id)
            == if Low32(sent) <= received then Some(Low32(received - sent)) else GetStatus(c, id)
  {
    ParseWire(c.signature, p);
    HandleDatagramIs(c, Datagram(from, Wire(c.signature, p)), received);
    StatusAfterPacket(c.(prefix := c.signature), id, from, p, received);
    Low32Difference(received, sent);
  }

  /** `answer` is what B, in any state, answers at `timeB` to packet `i` of a pass of A at `sent`. */
  ghost predicate Answered<R>(a: Server<R>, id: uint32, sent: int, i: nat, b: Server<R>, addressA: Address,
          timeB: int, answer: seq<byte>)
    requires WF(a) && WF(b) && id in a.byId
  {
    && |a.outbox| + i < |UpdateClient(a, id, sent).s.outbox|
    && HandleDatagram(b, Datagram(addressA, UpdateClient(a, id, sent).s.outbox[|a.outbox| + i].bytes), timeB).s.outbox
       == b.outbox + [Datagram(addressA, answer)]
  }

  lemma AnswerIs<R>(a: Server<R>, id: uint32, sent: int, i: nat, b: Server<R>, addressA: Address, timeB: int,
          answer: seq<byte>)
    returns (p: Packet)
    requires WF(a) && WF(b) && id in a.byId && a.prefix == b.signature
    requires i < |Poll(a.heap[a.byId[id]], sent).1| && Answered(a, id, sent, i, b, addressA, timeB, answer)
    ensures answer == Wire(b.signature, p) && (p.Pong? || p.Handshake? || p.HandshakeReset?) && p.stamp == Low32(sent)
  {
    p := PassAnswered(a, id, sent, i, b, addressA, timeB);
    SameLast(b.outbox, Datagram(addressA, answer), Datagram(addressA, Wire(b.signature, p)));
  }

  lemma SameLast<T>(s: seq<T>, x: T, y: T)
    requires s + [x] == s + [y]
    ensures x == y
  {
    assert (s + [x])[|s|] == x;
  }

  /** The ping reported after a round trip, the answer processed by A in any later state. */
  lemma PingSurvives<R>(a: Server<R>, id: uint32, sent: int, i: nat, b: Server<R>, addressA: Address, timeB: int,
          answer: seq<byte>,
                        later: Server<R>, from: Address, received: int)
    requires WF(a) && WF(b) && WF(later) && id in a.byId && a.prefix == b.signature == later.signature
    requires i < |Poll(a.heap[a.byId[id]], sent).1| && Answered(a, id, sent, i, b, addressA, timeB, answer)
    requires from in later.byAddress && id in later.byId && later.byId[id] == later.byAddress[from]
    ensures StatusAfter(later, Datagram(from, answer), received, id)
            == if Low32(sent) <= received then Some(Low32(received - sent)) else GetStatus(later, id)
  {
    var p := AnswerIs(a, id, sent, i, b, addressA, timeB, answer);
    StatusAfterAnswer(later, id, from, p, sent, received);
  }

  /** With a clock that has not gone back the answer is always accepted. */
  lemma PunctualPing<R>(later: Server<R>, id: uint32, from: Address, p: Packet, sent: int, received: int)
    requires WF(later) && from in later.byAddress && id in later.byId && later.byId[id] == later.byAddress[from]
    requires (p.Pong? || p.Handshake? || p.HandshakeReset?) && p.stamp == Low32(sent) && 0 <= sent <= received
    ensures StatusAfter(later, Datagram(from, Wire(later.signature, p)), received, id) == Some(Low32(received - sent))
  {
    StatusAfterAnswer(later, id, from, p, sent, received);
  }
}
