// The server (src/UdcServer.cpp, src/udp_connect.cpp) as functions on values. `R` stands for the
// shared pointers: `heap` gives the client each one points to, so the two indexes may share clients.
// Of the message buffer only its first four bytes (`prefix`, the resident signature) outlive a call.

module ServerSpec {
  import opened Bytes
  import opened Message
  import opened Client

  datatype Datagram = Datagram(address: Address, bytes: seq<byte>)

  datatype Event =
    | ConnectionSuccess(id: uint32)
    | ConnectionTimeout(id: uint32)
    | ConnectionLost(id: uint32)
    | ConnectionRegained(id: uint32)
    | ReceiveMessage(from: Address, msgIndex: nat, payload: seq<byte>)

  datatype Server<R(==)> = Server(
    signature: Signature,
    bufferSize: uint32,
    idCounter: uint32,
    pending: seq<R>,
    byId: map<uint32, R>,
    byAddress: map<Address, R>,
    reliableStates: map<Address, Bit>,
    heap: map<R, ClientState>,
    prefix: Signature,
    inbox: seq<Datagram>,
    outbox: seq<Datagram>)

  datatype Outcome<R(==)> = Outcome(s: Server<R>, event: Option<Event>)

  /** Every queued message fits the buffer behind the reliable header. */
  predicate Fits(c: ClientState, bufferSize: uint32) {
    forall m <- c.queue :: RELIABLE_SIZE + |m| <= bufferSize
  }

  ghost predicate Tables<R>(bufferSize: uint32, pending: seq<R>, byId: map<uint32, R>, byAddress: map<Address, R>,
                            heap: map<R, ClientState>)
  {
    && (forall r <- pending :: r in heap)
    && (forall id <- byId :: byId[id] in heap)
    && (forall a <- byAddress :: byAddress[a] in heap)
    && (forall r <- heap :: Fits(heap[r], bufferSize))
  }

  /** No dangling pointer, and the buffer holds the smallest messages and every queued one. */
  ghost predicate WF<R>(s: Server<R>) {
    RELIABLE_SIZE <= s.bufferSize && Tables(s.bufferSize, s.pending, s.byId, s.byAddress, s.heap)
  }

  function SetClient<R>(s: Server<R>, r: R, c: ClientState): Server<R> {
    s.(heap := s.heap[r := c])
  }

  function Datagrams(prefix: Signature, to: Address, packets: seq<Packet>): (sent: seq<Datagram>)
    ensures |sent| == |packets|
    ensures forall i | 0 <= i < |packets| :: sent[i] == Datagram(to, Wire(prefix, packets[i]))
  {
    if packets == [] then [] else [Datagram(to, Wire(prefix, packets[0]))] + Datagrams(prefix, to, packets[1..])
  }

  lemma DatagramsAppend(prefix: Signature, to: Address, packets: seq<Packet>, more: seq<Packet>)
    ensures Datagrams(prefix, to, packets + more) == Datagrams(prefix, to, packets) + Datagrams(prefix, to, more)
  {
  }

  function Send<R>(s: Server<R>, to: Address, p: Packet): Server<R> {
    s.(outbox := s.outbox + [Datagram(to, Wire(s.prefix, p))])
  }

  // ---- outgoing side of udcProcessEvents ----

  function UpdatePendingClients<R>(s: Server<R>, time: int): Outcome<R>
    requires WF(s)
  {
    if s.pending == [] then Outcome(s, None)
    else
      var r := s.pending[0];
      var c := s.heap[r];
      if NeedsConnectionTimeoutEvent(c, time) then
        Outcome(s.(pending := s.pending[1..]), Some(ConnectionTimeout(c.id)))
      else if NeedsConnectionAttempt(c, time) then
        Outcome(Send(SetClient(s, r, RetryConnecting(c, time)), c.outgoing, ConnectionRequest(c.id)), None)
      else Outcome(s, None)
  }

  lemma UpdatePendingClientsWF<R>(s: Server<R>, time: int)
    requires WF(s)
    ensures WF(UpdatePendingClients(s, time).s) && UpdatePendingClients(s, time).s.byId == s.byId
  {
    if s.pending != [] {
      var r := s.pending[0];
      SetClientWF(s, r, RetryConnecting(s.heap[r], time));
    }
  }

  function ReliableStage<R>(s: Server<R>, r: R, time: int): Server<R>
    requires r in s.heap
  {
    var (d, out) := PollReliable(s.heap[r], time);
    if out.Some? then Send(SetClient(s, r, d), d.outgoing, out.value) else SetClient(s, r, d)
  }

  function PingStage<R>(s: Server<R>, r: R, time: int): Server<R>
    requires r in s.heap
  {
    if NeedsPing(s.heap[r], time) then Send(s, s.heap[r].outgoing, Ping(Low32(time))) else s
  }

  function LostStage<R>(s: Server<R>, r: R, time: int): Outcome<R>
    requires r in s.heap
  {
    if NeedsConnectionLostEvent(s.heap[r], time) then
      Outcome(SetClient(s, r, SetConnectionLost(s.heap[r])), Some(ConnectionLost(s.heap[r].id)))
    else Outcome(s, None)
  }

  /** One iteration of the loop over the connected clients. */
  function UpdateClient<R>(s: Server<R>, id: uint32, time: int): Outcome<R>
    requires WF(s) && id in s.byId
  {
    var r := s.byId[id];
    LostStage(PingStage(ReliableStage(s, r, time), r, time), r, time)
  }

  lemma ReliableStageWF<R>(s: Server<R>, r: R, time: int)
    requires WF(s) && r in s.heap
    ensures WF(ReliableStage(s, r, time)) && ReliableStage(s, r, time).heap.Keys == s.heap.Keys
    ensures ReliableStage(s, r, time).byId == s.byId
  {
    SetClientWF(s, r, PollReliable(s.heap[r], time).0);
  }

  lemma PingStageWF<R>(s: Server<R>, r: R, time: int)
    requires WF(s) && r in s.heap
    ensures WF(PingStage(s, r, time)) && PingStage(s, r, time).heap == s.heap && PingStage(s, r, time).byId == s.byId
  {
  }

  lemma LostStageWF<R>(s: Server<R>, r: R, time: int)
    requires WF(s) && r in s.heap
    ensures WF(LostStage(s, r, time).s) && LostStage(s, r, time).s.byId == s.byId
  {
    SetClientWF(s, r, SetConnectionLost(s.heap[r]));
  }

  lemma UpdateClientWF<R>(s: Server<R>, id: uint32, time: int)
    requires WF(s) && id in s.byId
    ensures WF(UpdateClient(s, id, time).s) && UpdateClient(s, id, time).s.byId == s.byId
  {
    var r := s.byId[id];
    var s1 := ReliableStage(s, r, time);
    ReliableStageWF(s, r, time);
    var s2 := PingStage(s1, r, time);
    PingStageWF(s1, r, time);
    LostStageWF(s2, r, time);
  }

  // What each stage amounts to: one client polled, its packets appended to the outbox.

  lemma OneDatagram(prefix: Signature, to: Address, p: Option<Packet>)
    ensures Datagrams(prefix, to, if p.Some? then [p.value] else [])
            == if p.Some? then [Datagram(to, Wire(prefix, p.value))] else []
  {
  }

  function Sent<R>(s: Server<R>, r: R, c: ClientState, packets: seq<Packet>): Server<R> {
    SetClient(s, r, c).(outbox := s.outbox + Datagrams(s.prefix, c.outgoing, packets))
  }

  lemma SentTwice<R>(s: Server<R>, r: R, c: ClientState, d: ClientState, ps: seq<Packet>, qs: seq<Packet>)
    requires c.outgoing == d.outgoing
    ensures Sent(Sent(s, r, c, ps), r, d, qs) == Sent(s, r, d, ps + qs)
  {
    DatagramsAppend(s.prefix, c.outgoing, ps, qs);
    Associative(s.outbox, Datagrams(s.prefix, c.outgoing, ps), Datagrams(s.prefix, c.outgoing, qs));
    UpdateTwice(s.heap, r, c, d);
  }

  lemma Associative<T>(a: seq<T>, b: seq<T>, c: seq<T>)
    ensures a + b + c == a + (b + c)
  {
  }

  lemma UpdateTwice<K, V>(m: map<K, V>, k: K, v: V, w: V)
    ensures m[k := v][k := w] == m[k := w]
  {
  }

  lemma ReliableStageIsSent<R>(s: Server<R>, r: R, time: int)
    requires r in s.heap
    ensures var (d, out) := PollReliable(s.heap[r], time);
            ReliableStage(s, r, time) == Sent(s, r, d, if out.Some? then [out.value] else [])
  {
    var (d, out) := PollReliable(s.heap[r], time);
    OneDatagram(s.prefix, d.outgoing, out);
    assert s.outbox + [] == s.outbox;
  }

  lemma PingStageIsSent<R>(s: Server<R>, r: R, time: int)
    requires r in s.heap
    ensures var c := s.heap[r];
            PingStage(s, r, time) == Sent(s, r, c, if NeedsPing(c, time) then [Ping(Low32(time))] else [])
  {
    var c := s.heap[r];
    assert s.heap[r := c] == s.heap;
    assert s.outbox + [] == s.outbox;
    OneDatagram(s.prefix, c.outgoing, if NeedsPing(c, time) then Some(Ping(Low32(time))) else None);
  }

  lemma LostStageIsSent<R>(s: Server<R>, r: R, time: int)
    requires r in s.heap
    ensures var c := s.heap[r];
            LostStage(s, r, time).s
            == Sent(s, r, if NeedsConnectionLostEvent(c, time) then SetConnectionLost(c) else c, [])
  {
    assert s.heap[r := s.heap[r]] == s.heap;
    assert s.outbox + [] == s.outbox;
  }

  lemma UpdateClientIsPoll<R>(s: Server<R>, id: uint32, time: int)
    requires WF(s) && id in s.byId
    ensures var r := s.byId[id];
            var (c, packets, lost) := Poll(s.heap[r], time);
            UpdateClient(s, id, time)
            == Outcome(Sent(s, r, c, packets), if lost then Some(ConnectionLost(c.id)) else None)
  {
    var r := s.byId[id];
    var (d, out) := PollReliable(s.heap[r], time);
    var first := if out.Some? then [out.value] else [];
    var pings := if NeedsPing(d, time) then [Packet.Ping(Low32(time))] else [];
    var c := if NeedsConnectionLostEvent(d, time) then SetConnectionLost(d) else d;
    ReliableStageIsSent(s, r, time);
    var s1 := ReliableStage(s, r, time);
    PingStageIsSent(s1, r, time);
    var s2 := PingStage(s1, r, time);
    LostStageIsSent(s2, r, time);
    SentTwice(s, r, d, d, first, pings);
    SentTwice(s, r, d, c, first + pings, []);
    assert first + pings + [] == first + pings;
  }

  lemma SetClientWF<R>(s: Server<R>, r: R, c: ClientState)
    requires WF(s) && Fits(c, s.bufferSize)
    ensures WF(SetClient(s, r, c))
  {
  }


  /** Each key once: a way the hash map may be iterated over. */
  predicate Visits(order: seq<uint32>, keys: set<uint32>) {
    && (forall id <- order :: id in keys) && (forall id <- keys :: id in order)
    && Distinct(order)
  }

  /** The loop, for the iteration order `order`, which the hash map leaves unspecified. */
  function UpdateClients<R>(s: Server<R>, order: seq<uint32>, time: int): Outcome<R>
    requires WF(s) && forall id <- order :: id in s.byId
    decreases |order|
  {
    if order == [] then Outcome(s, None)
    else
      UpdateClientWF(s, order[0], time);
      var o := UpdateClient(s, order[0], time);
      if o.event.Some? then o else UpdateClients(o.s, order[1..], time)
  }

  // ---- incoming side ----

  /** Moves the first pending client into both indexes: under its id, and under the address it answered from. */
  function FrontToConnected<R>(s: Server<R>, from: Address, id: uint32): Server<R>
    requires s.pending != []
  {
    s.(byId := s.byId[id := s.pending[0]], byAddress := s.byAddress[from := s.pending[0]], pending := s.pending[1..])
  }

  function AcceptConnection<R>(s: Server<R>, from: Address, id: uint32, time: int): Outcome<R>
    requires WF(s)
  {
    if s.pending == [] then Outcome(s, None)
    else
      var r := s.pending[0];
      if s.heap[r].id != id || from in s.byAddress then Outcome(s, None)
      else
        Outcome(FrontToConnected(SetClient(s, r, ReceiveConnectionHandshake(s.heap[r], time)), from, id),
                Some(ConnectionSuccess(id)))
  }

  function AcceptPong<R>(s: Server<R>, from: Address, stamp: uint32, time: int): Outcome<R>
    requires WF(s)
  {
    if from !in s.byAddress || time < stamp then Outcome(s, None)
    else
      var r := s.byAddress[from];
      var c := s.heap[r];
      Outcome(SetClient(s, r, ReceivePong(c, stamp, time)),
              if c.connected then None else Some(ConnectionRegained(c.id)))
  }

  lemma AcceptConnectionWF<R>(s: Server<R>, from: Address, id: uint32, time: int)
    requires WF(s)
    ensures WF(AcceptConnection(s, from, id, time).s)
  {
    if s.pending != [] {
      SetClientWF(s, s.pending[0], ReceiveConnectionHandshake(s.heap[s.pending[0]], time));
    }
  }

  lemma AcceptPongWF<R>(s: Server<R>, from: Address, stamp: uint32, time: int)
    requires WF(s)
    ensures WF(AcceptPong(s, from, stamp, time).s)
  {
    if from in s.byAddress {
      SetClientWF(s, s.byAddress[from], ReceivePong(s.heap[s.byAddress[from]], stamp, time));
    }
  }

  lemma AcceptReliableHandshakeWF<R>(s: Server<R>, from: Address, state: ReliableState, stamp: uint32, time: int)
    requires WF(s)
    ensures WF(AcceptReliableHandshake(s, from, state, stamp, time).s)
  {
    if from in s.byAddress {
      SetClientWF(s, s.byAddress[from], ReceiveReliableHandshake(s.heap[s.byAddress[from]], state, stamp, time));
    }
  }

  function AcceptReliableHandshake<R>(s: Server<R>, from: Address, state: ReliableState, stamp: uint32,
          time: int): Outcome<R>
    requires WF(s)
  {
    if from !in s.byAddress || time < stamp then Outcome(s, None)
    else
      var r := s.byAddress[from];
      var c := s.heap[r];
      Outcome(SetClient(s, r, ReceiveReliableHandshake(c, state, stamp, time)),
              if c.connected then None else Some(ConnectionRegained(c.id)))
  }

  /** The receiver of reliable messages: its entry for one address, and whether it delivers. */
  function ReceiveReliable(entry: Option<Bit>, bit: Bit): (Option<Bit>, bool) {
    (Some(Flip(bit)), entry.None? || entry.value == bit)
  }

  function ReceiveReset(entry: Option<Bit>): Option<Bit> {
    if entry.Some? then Some(0) else None
  }

  function EntryOf(states: map<Address, Bit>, from: Address): Option<Bit> {
    if from in states then Some(states[from]) else None
  }

  function WithEntry(states: map<Address, Bit>, from: Address, entry: Option<Bit>): map<Address, Bit> {
    if entry.Some? then states[from := entry.value] else states
  }

  function HandlePacket<R>(s: Server<R>, from: Address, p: Packet, time: int): Outcome<R>
    requires WF(s)
  {
    match p
    case ConnectionRequest(id) => Outcome(Send(s, from, ConnectionHandshake(id)), None)
    case ConnectionHandshake(id) => AcceptConnection(s, from, id, time)
    case Ping(stamp) => Outcome(Send(s, from, Pong(stamp)), None)
    case Pong(stamp) => AcceptPong(s, from, stamp, time)
    case Unreliable(data) => Outcome(s, Some(ReceiveMessage(from, HEADER_SIZE, data)))
    case ReliableReset(stamp) =>
      var entry := ReceiveReset(EntryOf(s.reliableStates, from));
      Outcome(Send(s.(reliableStates := WithEntry(s.reliableStates, from, entry)), from, HandshakeReset(stamp)), None)
    case Reliable(bit, stamp, data) =>
      var (entry, deliver) := ReceiveReliable(EntryOf(s.reliableStates, from), bit);
      Outcome(Send(s.(reliableStates := WithEntry(s.reliableStates, from, entry)), from, Handshake(bit, stamp)),
              if deliver then Some(ReceiveMessage(from, RELIABLE_SIZE, data)) else None)
    case HandshakeReset(stamp) => AcceptReliableHandshake(s, from, -1, stamp, time)
    case Handshake(bit, stamp) => AcceptReliableHandshake(s, from, bit, stamp, time)
  }

  lemma HandlePacketWF<R>(s: Server<R>, from: Address, p: Packet, time: int)
    requires WF(s)
    ensures WF(HandlePacket(s, from, p, time).s) && HandlePacket(s, from, p, time).s.inbox == s.inbox
    ensures HandlePacket(s, from, p, time).s.prefix == s.prefix
        && HandlePacket(s, from, p, time).s.signature == s.signature
    ensures HandlePacket(s, from, p, time).s.bufferSize == s.bufferSize
  {
    match p
    case ConnectionHandshake(id) => AcceptConnectionWF(s, from, id, time);
    case Pong(stamp) => AcceptPongWF(s, from, stamp, time);
    case HandshakeReset(stamp) => AcceptReliableHandshakeWF(s, from, -1, stamp, time);
    case Handshake(bit, stamp) => AcceptReliableHandshakeWF(s, from, bit, stamp, time);
    case _ =>
  }

  /** The resident four bytes after `bytes` landed at the start of the buffer. */
  function Land(prefix: Signature, bytes: seq<byte>): Signature {
    if |bytes| >= SIGNATURE_SIZE then bytes[..4] else bytes + prefix[|bytes|..]
  }

  lemma LandOverwrite(buffer: seq<byte>, bytes: seq<byte>)
    requires SIGNATURE_SIZE <= |buffer| && |bytes| <= |buffer|
    ensures Overwrite(buffer, 0, bytes)[..4] == Land(buffer[..4], bytes)
    ensures Overwrite(buffer, 0, bytes)[..|bytes|] == bytes
  {
  }

  /** What `recvfrom` does with the next datagram when `offered` bytes are offered: an empty one reads as a
      closed connection, a longer one fills the offered bytes and reports an error; both end the receive loop. */
  datatype Reception = Nothing | Failed(landed: seq<byte>) | Received(d: Datagram)

  function Receive(inbox: seq<Datagram>, offered: nat): Reception {
    if inbox == [] then Nothing
    else if |inbox[0].bytes| == 0 then Failed([])
    else if |inbox[0].bytes| > offered then Failed(inbox[0].bytes[..offered])
    else Received(inbox[0])
  }

  /** One turn of the receive loop, on a datagram received whole. */
  function HandleDatagram<R>(s: Server<R>, d: Datagram, time: int): Outcome<R>
    requires WF(s)
  {
    var s1 := s.(prefix := Land(s.prefix, d.bytes));
    if |d.bytes| < HEADER_SIZE then Outcome(s1, None)
    else if s1.prefix != s.signature then Outcome(s1.(prefix := s.signature), None)
    else Dispatch(s1, d.address, d.bytes, time)
  }

  /** The receive switch, on a datagram with the right signature. */
  function Dispatch<R>(s: Server<R>, from: Address, bytes: seq<byte>, time: int): Outcome<R>
    requires WF(s)
  {
    var p := Parse(s.signature, bytes);
    if p.None? then Outcome(s, None) else HandlePacket(s, from, p.value, time)
  }

  lemma HandleDatagramWF<R>(s: Server<R>, d: Datagram, time: int)
    requires WF(s)
    ensures WF(HandleDatagram(s, d, time).s) && HandleDatagram(s, d, time).s.inbox == s.inbox
    ensures HandleDatagram(s, d, time).s.signature == s.signature
    ensures HandleDatagram(s, d, time).s.bufferSize == s.bufferSize
  {
    var s1 := s.(prefix := Land(s.prefix, d.bytes));
    var p := Parse(s.signature, d.bytes);
    if p.Some? {
      HandlePacketWF(s1, d.address, p.value, time);
    }
  }

  /** A turn of the loop is the packet switch, or leaves everything but the buffer alone. */
  lemma HandleDatagramIs<R>(s: Server<R>, d: Datagram, time: int)
    requires WF(s)
    ensures var o := HandleDatagram(s, d, time);
            match Parse(s.signature, d.bytes)
            case Some(p) => o == HandlePacket(s.(prefix := s.signature), d.address, p, time)
            case None => o == Outcome(s.(prefix := o.s.prefix), None)
  {
  }

  /** The receive loop. The size offered to the socket is a variable set once per call and then
      overwritten by each received size, so it only shrinks. */
  function ReceiveMessages<R>(s: Server<R>, offered: nat, time: int): Outcome<R>
    requires WF(s)
    decreases |s.inbox|
  {
    match Receive(s.inbox, offered)
    case Nothing => Outcome(s, None)
    case Failed(landed) => Outcome(s.(inbox := s.inbox[1..], prefix := Land(s.prefix, landed)), None)
    case Received(d) =>
      var s1 := s.(inbox := s.inbox[1..]);
      HandleDatagramWF(s1, d, time);
      var o := HandleDatagram(s1, d, time);
      if o.event.Some? then o else ReceiveMessages(o.s, |d.bytes|, time)
  }

  /** udcProcessEvents. */
  function ProcessEvents<R>(s: Server<R>, order: seq<uint32>, time: int): Outcome<R>
    requires WF(s) && forall id <- order :: id in s.byId
  {
    var o1 := UpdatePendingClients(s, time);
    if o1.event.Some? then o1
    else
      var o2 := UpdateClients(o1.s, order, time);
      if o2.event.Some? then o2
      else
        UpdateClientsWF(o1.s, order, time);
        ReceiveMessages(o2.s, o2.s.bufferSize, time)
  }

  lemma UpdateClientsWF<R>(s: Server<R>, order: seq<uint32>, time: int)
    requires WF(s) && forall id <- order :: id in s.byId
    ensures WF(UpdateClients(s, order, time).s) && UpdateClients(s, order, time).s.byId == s.byId
    decreases |order|
  {
    if order != [] {
      UpdateClientWF(s, order[0], time);
      var o := UpdateClient(s, order[0], time);
      if o.event.None? {
        UpdateClientsWF(o.s, order[1..], time);
      }
    }
  }

  lemma ReceiveMessagesWF<R>(s: Server<R>, offered: nat, time: int)
    requires WF(s)
    ensures WF(ReceiveMessages(s, offered, time).s)
    decreases |s.inbox|
  {
    if Receive(s.inbox, offered).Received? {
      HandleDatagramWF(s.(inbox := s.inbox[1..]), s.inbox[0], time);
    }
  }

  lemma ProcessEventsWF<R>(s: Server<R>, order: seq<uint32>, time: int)
    requires WF(s) && forall id <- order :: id in s.byId
    ensures WF(ProcessEvents(s, order, time).s)
  {
    UpdatePendingClientsWF(s, time);
    var o1 := UpdatePendingClients(s, time);
    if o1.event.None? {
      UpdateClientsWF(o1.s, order, time);
      var o2 := UpdateClients(o1.s, order, time);
      if o2.event.None? {
        ReceiveMessagesWF(o2.s, o2.s.bufferSize, time);
      }
    }
  }

  // ---- API calls ----

  /** The two periods handed to the client constructor by udcTryConnectIPv4/6: `timeout` is taken as the ping
      period and min(500, timeout / 10) as the timeout period. */
  function PassedPingPeriod(timeout: uint32): int { timeout }

  function PassedTimeoutPeriod(timeout: uint32): int {
    if timeout / 10 < 500 then timeout / 10 else 500
  }

  function NextId(counter: uint32): uint32 {
    if counter == 0xFFFF_FFFF then 0 else counter + 1
  }

  /** createUniqueId and addPendingClient, for the fresh pointer `r`. */
  function AddPending<R>(s: Server<R>, r: R, outgoing: Address, pingPeriod: int, timeoutPeriod: int,
          time: int): Server<R> {
    var id := NextId(s.idCounter);
    s.(idCounter := id,
       heap := s.heap[r := StartConnecting(NewClient(id, outgoing, pingPeriod, timeoutPeriod), time)],
       pending := s.pending + [r])
  }

  lemma AddPendingWF<R>(s: Server<R>, r: R, outgoing: Address, pingPeriod: int, timeoutPeriod: int, time: int)
    requires WF(s)
    ensures WF(AddPending(s, r, outgoing, pingPeriod, timeoutPeriod, time))
  {
  }

  /** udcTryConnectIPv4/6: refused without effect for a zero timeout. */
  function TryConnect<R>(s: Server<R>, r: R, outgoing: Address, timeout: uint32, time: int): (Server<R>,
          Option<uint32>) {
    if timeout == 0 then (s, None)
    else
      (AddPending(s, r, outgoing, PassedPingPeriod(timeout), PassedTimeoutPeriod(timeout), time),
          Some(NextId(s.idCounter)))
  }

  function WithoutId<R>(heap: map<R, ClientState>, pending: seq<R>, id: uint32): (kept: seq<R>)
    requires forall r <- pending :: r in heap
    ensures forall r <- kept :: r in pending
  {
    if pending == [] then []
    else if heap[pending[0]].id == id then WithoutId(heap, pending[1..], id)
    else [pending[0]] + WithoutId(heap, pending[1..], id)
  }

  lemma WithoutIdStep<R>(heap: map<R, ClientState>, kept: seq<R>, rest: seq<R>, id: uint32)
    requires rest != [] && forall r <- rest :: r in heap
    ensures (forall r <- rest[1..] :: r in heap) && kept + WithoutId(heap, rest, id)
            == (if heap[rest[0]].id == id then kept else kept + [rest[0]]) + WithoutId(heap, rest[1..], id)
  {
    Associative(kept, [rest[0]], WithoutId(heap, rest[1..], id));
  }

  /** The two sides of position `i` before and after erasing there. */
  lemma EraseAt<R>(refs: seq<R>, i: nat)
    requires i < |refs|
    ensures refs[i..][0] == refs[i] && refs[i..][1..] == refs[i + 1..] && refs[..i + 1] == refs[..i] + [refs[i]]
    ensures var erased := refs[..i] + refs[i + 1..]; erased[..i] == refs[..i] && erased[i..] == refs[i + 1..]
    ensures forall r <- refs[..i] + refs[i + 1..] :: r in refs
  {
  }

  function Disconnect<R>(s: Server<R>, id: uint32): Server<R>
    requires WF(s)
  {
    if id in s.byId then
      s.(byAddress := s.byAddress - {s.heap[s.byId[id]].outgoing}, byId := s.byId - {id})
    else s.(pending := WithoutId(s.heap, s.pending, id))
  }

  /** The size test of both send calls, in 32-bit arithmetic. */
  predicate FitsBuffer(bufferSize: uint32, header: nat, size: uint32) {
    (size + header) % 0x1_0000_0000 <= bufferSize
  }

  /** The test lets no message through that the buffer cannot hold. */
  predicate TestHolds(bufferSize: uint32, header: nat, size: uint32) {
    FitsBuffer(bufferSize, header, size) ==> header + size <= bufferSize
  }

  function SendUnreliable<R>(s: Server<R>, id: uint32, data: seq<byte>): (Server<R>, bool)
    requires WF(s) && |data| < 0x1_0000_0000
  {
    if !FitsBuffer(s.bufferSize, HEADER_SIZE, |data|) || id !in s.byId then (s, false)
    else
      var c := s.heap[s.byId[id]];
      (if c.connected then Send(s, c.outgoing, Unreliable(data)) else s, true)
  }

  function SendReliable<R>(s: Server<R>, id: uint32, data: seq<byte>): (Server<R>, bool)
    requires WF(s) && |data| < 0x1_0000_0000
  {
    if !FitsBuffer(s.bufferSize, RELIABLE_SIZE, |data|) || id !in s.byId then (s, false)
    else
      var r := s.byId[id];
      (SetClient(s, r, s.heap[r].(queue := s.heap[r].queue + [data])), true)
  }

  /** udcGetStatus: the 64-bit ping cast to 32 bits, for a connected endpoint. */
  function GetStatus<R>(s: Server<R>, id: uint32): Option<uint32>
    requires WF(s)
  {
    if id in s.byId && s.heap[s.byId[id]].connected then Some(Low32(s.heap[s.byId[id]].ping)) else None
  }

  lemma DisconnectWF<R>(s: Server<R>, id: uint32)
    requires WF(s)
    ensures WF(Disconnect(s, id))
  {
  }

  /** An accepted reliable message keeps the queues sendable if and only if it really fits. */
  lemma SendWF<R>(s: Server<R>, id: uint32, data: seq<byte>)
    requires WF(s) && |data| < 0x1_0000_0000
    ensures WF(SendReliable(s, id, data).0) <==> id !in s.byId || TestHolds(s.bufferSize, RELIABLE_SIZE, |data|)
  {
    var t := SendReliable(s, id, data).0;
    if id in s.byId && FitsBuffer(s.bufferSize, RELIABLE_SIZE, |data|) {
      var r := s.byId[id];
      var queue := s.heap[r].queue;
      assert t.heap[r].queue[|queue|] == data;
      assert data in t.heap[r].queue;
    }
  }
}
