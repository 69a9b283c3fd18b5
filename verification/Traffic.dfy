// What leaves a server.

module Traffic {
  import opened Bytes
  import opened Message
  import opened Client
  import opened ServerSpec
  import opened Runs

  // The signature is written into the shared buffer once and stays there; every message is sent from behind it
  // (src/UdcServer.cpp:17-21, 163-178, 412-420, 532-534).

  /** The signature is in the buffer, and every datagram sent is the image of a packet under it. */
  ghost predicate Resident<R>(s: Server<R>) {
    s.prefix == s.signature && forall d <- s.outbox :: Parse(s.signature, d.bytes).Some?
  }

  /** One pass over a client sends exactly the packets of the pass, to its address, each under the right id byte. */
  lemma UpdateClientTraffic<R>(s: Server<R>, id: uint32, time: int)
    requires WF(s) && id in s.byId && Resident(s)
    ensures var t := UpdateClient(s, id, time).s;
            var packets := Poll(s.heap[s.byId[id]], time).1;
            && Resident(t) && |t.outbox| == |s.outbox| + |packets| && t.outbox[..|s.outbox|] == s.outbox
            && (forall i | 0 <= i < |packets| ::
                  var d := t.outbox[|s.outbox| + i];
                  d.address == s.heap[s.byId[id]].outgoing && Parse(s.signature, d.bytes) == Some(packets[i]))
  {
    var c := s.heap[s.byId[id]];
    UpdateClientIsPoll(s, id, time);
    PollKeeps(c, time);
    var packets := Poll(c, time).1;
    DatagramsParse(s.prefix, c.outgoing, packets);
  }

  lemma DatagramsParse(prefix: Signature, to: Address, packets: seq<Packet>)
    ensures var sent := Datagrams(prefix, to, packets);
            forall i | 0 <= i < |packets| :: Parse(prefix, sent[i].bytes) == Some(packets[i])
    ensures forall d <- Datagrams(prefix, to, packets) :: Parse(prefix, d.bytes).Some?
  {
    forall i | 0 <= i < |packets| ensures Parse(prefix, Wire(prefix, packets[i])) == Some(packets[i]) {
      ParseWire(prefix, packets[i]);
    }
  }

  lemma UpdatePendingResident<R>(s: Server<R>, time: int)
    requires WF(s) && Resident(s)
    ensures Resident(UpdatePendingClients(s, time).s)
  {
    if s.pending != [] {
      ParseWire(s.signature, ConnectionRequest(s.heap[s.pending[0]].id));
    }
  }

  lemma {:induction false} UpdateClientsResident<R>(s: Server<R>, order: seq<uint32>, time: int)
    requires WF(s) && Resident(s) && forall id <- order :: id in s.byId
    ensures Resident(UpdateClients(s, order, time).s) && UpdateClients(s, order, time).s.signature == s.signature
    decreases |order|
  {
    if order != [] {
      UpdateClientTraffic(s, order[0], time);
      UpdateClientIsPoll(s, order[0], time);
      UpdateClientWF(s, order[0], time);
      var o := UpdateClient(s, order[0], time);
      if o.event.None? {
        UpdateClientsResident(o.s, order[1..], time);
      }
    }
  }

  lemma HandlePacketResident<R>(s: Server<R>, from: Address, p: Packet, time: int)
    requires WF(s) && Resident(s)
    ensures Resident(HandlePacket(s, from, p, time).s)
  {
    match p
    case ConnectionRequest(id) => ParseWire(s.signature, ConnectionHandshake(id));
    case Ping(stamp) => ParseWire(s.signature, Pong(stamp));
    case ReliableReset(stamp) => ParseWire(s.signature, HandshakeReset(stamp));
    case Reliable(bit, stamp, data) => ParseWire(s.signature, Handshake(bit, stamp));
    case _ =>
  }

  /** The bytes agree with the signature as far as they reach into it. */
  predicate Agrees(bytes: seq<byte>, signature: Signature) {
    forall i | 0 <= i < |bytes| && i < SIGNATURE_SIZE :: bytes[i] == signature[i]
  }

  lemma LandAgrees(signature: Signature, bytes: seq<byte>)
    ensures Land(signature, bytes) == signature <==> Agrees(bytes, signature)
  {
    if Land(signature, bytes) == signature {
      forall i | 0 <= i < |bytes| && i < SIGNATURE_SIZE ensures bytes[i] == signature[i] {
        assert Land(signature, bytes)[i] == bytes[i];
      }
    }
  }

  /** A datagram received whole leaves the signature in place exactly when it has a full header, whoever's it is, or
      is too short to disturb it: the branch for short datagrams does not write the signature back. */
  lemma TurnKeepsSignature<R>(s: Server<R>, d: Datagram, time: int)
    requires WF(s) && s.prefix == s.signature
    ensures HandleDatagram(s, d, time).s.prefix == s.signature
            <==> |d.bytes| >= HEADER_SIZE || Agrees(d.bytes, s.signature)
  {
    var s1 := s.(prefix := Land(s.prefix, d.bytes));
    LandAgrees(s.signature, d.bytes);
    var p := Parse(s.signature, d.bytes);
    if |d.bytes| >= HEADER_SIZE && s1.prefix == s.signature && p.Some? {
      HandlePacketWF(s1, d.address, p.value, time);
    }
  }

  /** A truncated datagram leaves it in place exactly when the bytes that landed agree with it. */
  lemma TruncationKeepsSignature<R>(s: Server<R>, offered: nat, time: int)
    requires WF(s) && s.prefix == s.signature && Receive(s.inbox, offered).Failed?
    ensures ReceiveMessages(s, offered, time).s.prefix == s.signature
            <==> Agrees(Receive(s.inbox, offered).landed, s.signature)
  {
    LandAgrees(s.signature, Receive(s.inbox, offered).landed);
  }

  lemma HandleDatagramResident<R>(s: Server<R>, d: Datagram, time: int)
    requires WF(s) && Resident(s) && |d.bytes| >= HEADER_SIZE
    ensures Resident(HandleDatagram(s, d, time).s)
  {
    var s1 := s.(prefix := Land(s.prefix, d.bytes));
    var p := Parse(s.signature, d.bytes);
    if s1.prefix == s.signature && p.Some? {
      HandlePacketResident(s1, d.address, p.value, time);
    }
    TurnKeepsSignature(s, d, time);
  }

  /** None of the datagrams this receive loop takes in is shorter than the header or truncated by the socket. */
  ghost predicate Intact<R>(s: Server<R>, offered: nat, time: int)
    requires WF(s)
    decreases |s.inbox|
  {
    match Receive(s.inbox, offered)
    case Nothing => true
    case Failed(landed) => landed == []
    case Received(d) =>
      var s1 := s.(inbox := s.inbox[1..]);
      HandleDatagramWF(s1, d, time);
      var o := HandleDatagram(s1, d, time);
      |d.bytes| >= HEADER_SIZE && (o.event.None? ==> Intact(o.s, |d.bytes|, time))
  }

  lemma {:induction false} ReceiveResident<R>(s: Server<R>, offered: nat, time: int)
    requires WF(s) && Resident(s) && Intact(s, offered, time)
    ensures Resident(ReceiveMessages(s, offered, time).s)
    decreases |s.inbox|
  {
    if Receive(s.inbox, offered).Received? {
      var d := s.inbox[0];
      var s1 := s.(inbox := s.inbox[1..]);
      HandleDatagramWF(s1, d, time);
      HandleDatagramResident(s1, d, time);
      var o := HandleDatagram(s1, d, time);
      if o.event.None? {
        ReceiveResident(o.s, |d.bytes|, time);
      }
    }
  }

  ghost predicate IntactPoll<R>(s: Server<R>, order: seq<uint32>, time: int)
    requires WF(s) && forall id <- order :: id in s.byId
  {
    UpdatePendingClientsWF(s, time);
    var o1 := UpdatePendingClients(s, time);
    if o1.event.Some? then true
    else
      UpdateClientsWF(o1.s, order, time);
      var o2 := UpdateClients(o1.s, order, time);
      o2.event.None? ==> Intact(o2.s, o2.s.bufferSize, time)
  }

  lemma ProcessResident<R>(s: Server<R>, order: seq<uint32>, time: int)
    requires WF(s) && Resident(s) && (forall id <- order :: id in s.byId) && IntactPoll(s, order, time)
    ensures Resident(ProcessEvents(s, order, time).s)
  {
    UpdatePendingResident(s, time);
    UpdatePendingClientsWF(s, time);
    var o1 := UpdatePendingClients(s, time);
    if o1.event.None? {
      UpdateClientsResident(o1.s, order, time);
      UpdateClientsWF(o1.s, order, time);
      var o2 := UpdateClients(o1.s, order, time);
      if o2.event.None? {
        ReceiveResident(o2.s, o2.s.bufferSize, time);
      }
    }
  }

  /** A run all of whose polls receive datagrams whole. */
  ghost predicate IntactRun<R>(s: Server<R>, calls: seq<Call<R>>)
    requires WF(s) && Lawful(s, calls)
    decreases |calls|
  {
    calls != [] ==>
      && (calls[0].Process? ==> IntactPoll(s, calls[0].order, calls[0].time))
      && (CallWF(s, calls[0]); IntactRun(After(s, calls[0]).s, calls[1..]))
  }

  lemma CallResident<R>(s: Server<R>, call: Call<R>)
    requires WF(s) && Legal(s, call) && Resident(s)
    requires call.Process? ==> IntactPoll(s, call.order, call.time)
    ensures Resident(After(s, call).s)
  {
    match call
    case Process(order, time) => ProcessResident(s, order, time);
    case PushUnreliable(id, data) => ParseWire(s.signature, Unreliable(data));
    case _ =>
  }

  /** Over every run of a new server without short or truncated datagrams, the signature stays resident and
      everything ever sent is acceptable to a peer with the same signature. */
  lemma {:induction false} ResidentAlways<R>(s: Server<R>, h: Ledger.History, calls: seq<Call<R>>)
    requires WF(s) && Lawful(s, calls) && IntactRun(s, calls) && Resident(s)
    ensures Resident(Final(s, h, calls).0)
    decreases |calls|
  {
    if calls != [] {
      CallWF(s, calls[0]);
      CallResident(s, calls[0]);
      ResidentAlways(After(s, calls[0]).s, HistoryAfter(s, h, calls[0]), calls[1..]);
    }
  }

  /** The condition is needed: one stray byte, and what is sent next is refused by every peer. */
  lemma StrayByteMutes<R>(s: Server<R>, from: Address, x: byte, time: int, to: Address, p: Packet)
    requires WF(s) && s.prefix == s.signature && x != s.signature[0] && s.inbox == [Datagram(from, [x])]
    ensures var t := ReceiveMessages(s, s.bufferSize, time).s;
            && t.prefix != s.signature
            && |Send(t, to, p).outbox| == |t.outbox| + 1
            && Parse(s.signature, Send(t, to, p).outbox[|t.outbox|].bytes) == None
  {
    var d := Datagram(from, [x]);
    var s1 := s.(inbox := s.inbox[1..]);
    assert s.inbox[1..] == [];
    HandleDatagramWF(s1, d, time);
    var o := HandleDatagram(s1, d, time);
    assert Receive(o.s.inbox, 1) == Nothing;
    var t := ReceiveMessages(s, s.bufferSize, time).s;
    assert ReceiveMessages(o.s, 1, time) == Outcome(o.s, None);
    assert Receive(s.inbox, s.bufferSize) == Received(d);
    assert t == o.s;
    assert t.prefix[0] == x;
    ForeignSignature(s.signature, t.prefix, p);
  }

  /** The size test of the send calls, done in 32 bits, means what it says exactly when the sum does not wrap or
      wraps to something the buffer cannot hold either; otherwise it lets through what the buffer cannot hold. */
  lemma FitsBufferExactly(bufferSize: uint32, header: nat, size: uint32)
    requires header <= RELIABLE_SIZE
    ensures var exact := size + header < 0x1_0000_0000 || size + header - 0x1_0000_0000 > bufferSize;
            && ((FitsBuffer(bufferSize, header, size) <==> header + size <= bufferSize) <==> exact)
            && (TestHolds(bufferSize, header, size) <==> exact)
  {
    if size + header >= 0x1_0000_0000 {
      assert (size + header) % 0x1_0000_0000 == size + header - 0x1_0000_0000;
    }
  }

  /** Every queued message of every reachable state fits behind the reliable header. */
  lemma QueueFitAlways<R>(s: Server<R>, calls: seq<Call<R>>, r: R, m: seq<byte>)
    requires NewServer(s) && Lawful(s, calls)
    requires var t := Final(s, NO_HISTORY, calls).0; r in t.heap && m in t.heap[r].queue
    ensures RELIABLE_SIZE + |m| <= Final(s, NO_HISTORY, calls).0.bufferSize
  {
  }
}
