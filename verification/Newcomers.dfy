// A connection starts with an empty queue at bit 0 and no ping, because a client that is still pending has sent nothing
// reliable and heard nothing: it is in no index, so no send call and no answer reaches it, and each pending client is
// queued once (src/UdcClient.cpp:6-27, src/UdcServer.cpp:62-72, 136-151, 422-456, 468-607).

module Newcomers {
  import opened Bytes
  import opened Message
  import opened Client
  import opened ServerSpec
  import opened IndexTables
  import opened Ledger
  import opened Runs

  predicate Unsent(c: ClientState) {
    c.queue == [] && c.reliableState == 0 && c.reliableSentTime == 0
  }

  /** No answer has come. */
  predicate Unheard(c: ClientState) {
    c.ping == 0 && c.pingLastSetTime == 0
  }

  /** Pending clients are unsent and unheard, reached through no index, and each queued once. */
  ghost predicate PendingApart<R>(s: Server<R>) {
    && WF(s)
    && (forall r <- s.pending :: Unsent(s.heap[r]) && Unheard(s.heap[r]))
    && (forall id <- s.byId :: s.byId[id] !in s.pending) && (forall a <- s.byAddress :: s.byAddress[a] !in s.pending)
    && Distinct(s.pending)
  }

  /** An indexed client changes. */
  lemma IndexedApart<R>(s: Server<R>, r: R, c: ClientState)
    requires PendingApart(s) && r in s.heap && r !in s.pending && WF(SetClient(s, r, c))
    ensures PendingApart(SetClient(s, r, c))
  {
  }

  lemma UpdatePendingApart<R>(s: Server<R>, time: int)
    requires PendingApart(s)
    ensures PendingApart(UpdatePendingClients(s, time).s)
  {
    UpdatePendingClientsWF(s, time);
    if s.pending != [] {
      RetryApart(s, time);
      FrontApart(s);
    }
  }

  lemma RetryApart<R>(s: Server<R>, time: int)
    requires PendingApart(s) && s.pending != []
    ensures var r, c := s.pending[0], s.heap[s.pending[0]];
            PendingApart(Send(SetClient(s, r, RetryConnecting(c, time)), c.outgoing, ConnectionRequest(c.id)))
  {
    SetClientWF(s, s.pending[0], RetryConnecting(s.heap[s.pending[0]], time));
  }

  lemma FrontApart<R>(s: Server<R>)
    requires PendingApart(s) && s.pending != []
    ensures PendingApart(s.(pending := s.pending[1..]))
  {
  }

  lemma UpdateClientApart<R>(s: Server<R>, id: uint32, time: int)
    requires PendingApart(s) && id in s.byId
    ensures PendingApart(UpdateClient(s, id, time).s)
  {
    UpdateClientWF(s, id, time);
    UpdateClientIsPoll(s, id, time);
  }

  lemma {:induction false} UpdateClientsApart<R>(s: Server<R>, order: seq<uint32>, time: int)
    requires PendingApart(s) && forall id <- order :: id in s.byId
    ensures PendingApart(UpdateClients(s, order, time).s)
    decreases |order|
  {
    if order != [] {
      UpdateClientApart(s, order[0], time);
      UpdateClientWF(s, order[0], time);
      var o := UpdateClient(s, order[0], time);
      if o.event.None? {
        UpdateClientsApart(o.s, order[1..], time);
      }
    }
  }

  /** Connected at `time`, and nothing sent or heard yet. */
  predicate Starts(c: ClientState, time: int) {
    Unsent(c) && Unheard(c) && c.connected && c.lastReceivedTime == time
  }

  /** What the event says of the state it is returned with: a client just connected starts now. */
  ghost predicate FreshSuccess<R>(o: Outcome<R>, time: int) {
    && PendingApart(o.s)
    && (IsSuccess(o.event) ==> o.event.value.id in o.s.byId && Starts(o.s.heap[o.s.byId[o.event.value.id]], time))
  }

  lemma AcceptFresh<R>(s: Server<R>, from: Address, id: uint32, time: int)
    requires PendingApart(s)
    ensures FreshSuccess(AcceptConnection(s, from, id, time), time)
  {
    if s.pending != [] {
      var t := SetClient(s, s.pending[0], ReceiveConnectionHandshake(s.heap[s.pending[0]], time));
      SetClientWF(s, s.pending[0], ReceiveConnectionHandshake(s.heap[s.pending[0]], time));
      HandshakeApart(s, time);
      FrontConnected(t, from, id, time);
    }
  }

  lemma HandshakeApart<R>(s: Server<R>, time: int)
    requires PendingApart(s) && s.pending != []
    requires WF(SetClient(s, s.pending[0], ReceiveConnectionHandshake(s.heap[s.pending[0]], time)))
    ensures PendingApart(SetClient(s, s.pending[0], ReceiveConnectionHandshake(s.heap[s.pending[0]], time)))
  {
  }

  lemma FrontConnected<R>(s: Server<R>, from: Address, id: uint32, time: int)
    requires PendingApart(s) && s.pending != [] && Starts(s.heap[s.pending[0]], time)
    ensures FreshSuccess(Outcome(FrontToConnected(s, from, id), Some(ConnectionSuccess(id))), time)
  {
    assert forall i | 0 < i < |s.pending| :: s.pending[i] != s.pending[0];
  }

  lemma PacketFresh<R>(s: Server<R>, from: Address, p: Packet, time: int)
    requires PendingApart(s)
    ensures FreshSuccess(HandlePacket(s, from, p, time), time)
  {
    HandlePacketWF(s, from, p, time);
    match p
    case ConnectionHandshake(id) => AcceptFresh(s, from, id, time);
    case Pong(stamp) =>
      if from in s.byAddress && stamp <= time {
        IndexedApart(s, s.byAddress[from], ReceivePong(s.heap[s.byAddress[from]], stamp, time));
      }
    case HandshakeReset(stamp) => HandshakeFresh(s, from, -1, stamp, time);
    case Handshake(bit, stamp) => HandshakeFresh(s, from, bit, stamp, time);
    case _ =>
  }

  lemma HandshakeFresh<R>(s: Server<R>, from: Address, state: ReliableState, stamp: uint32, time: int)
    requires PendingApart(s)
    ensures FreshSuccess(AcceptReliableHandshake(s, from, state, stamp, time), time)
  {
    AcceptReliableHandshakeWF(s, from, state, stamp, time);
    if from in s.byAddress && stamp <= time {
      IndexedApart(s, s.byAddress[from], ReceiveReliableHandshake(s.heap[s.byAddress[from]], state, stamp, time));
    }
  }

  lemma TurnFresh<R>(s: Server<R>, d: Datagram, time: int)
    requires PendingApart(s)
    ensures FreshSuccess(HandleDatagram(s, d, time), time)
  {
    HandleDatagramIs(s, d, time);
    match Parse(s.signature, d.bytes)
    case Some(p) => PacketFresh(s.(prefix := s.signature), d.address, p, time);
    case None =>
  }

  lemma {:induction false} ReceiveFresh<R>(s: Server<R>, offered: nat, time: int)
    requires PendingApart(s)
    ensures FreshSuccess(ReceiveMessages(s, offered, time), time)
    decreases |s.inbox|
  {
    if Receive(s.inbox, offered).Received? {
      var s1 := s.(inbox := s.inbox[1..]);
      HandleDatagramWF(s1, s.inbox[0], time);
      TurnFresh(s1, s.inbox[0], time);
      var o := HandleDatagram(s1, s.inbox[0], time);
      if o.event.None? {
        ReceiveFresh(o.s, |s.inbox[0].bytes|, time);
      }
    }
  }

  lemma PollFresh<R>(s: Server<R>, order: seq<uint32>, time: int)
    requires PendingApart(s) && forall id <- order :: id in s.byId
    ensures FreshSuccess(ProcessEvents(s, order, time), time)
  {
    UpdatePendingApart(s, time);
    UpdatePendingClientsWF(s, time);
    var o1 := UpdatePendingClients(s, time);
    if o1.event.None? {
      UpdateClientsApart(o1.s, order, time);
      LoopReportsNoSuccess(o1.s, order, time);
      UpdateClientsWF(o1.s, order, time);
      var o2 := UpdateClients(o1.s, order, time);
      if o2.event.None? {
        ReceiveFresh(o2.s, o2.s.bufferSize, time);
      }
    }
  }

  lemma {:induction false} WithoutIdApart<R>(heap: map<R, ClientState>, pending: seq<R>, id: uint32)
    requires (forall r <- pending :: r in heap) && Distinct(pending)
    ensures Distinct(WithoutId(heap, pending, id))
  {
    if pending != [] {
      WithoutIdApart(heap, pending[1..], id);
      assert pending[0] !in pending[1..];
      assert pending[0] !in WithoutId(heap, pending[1..], id);
    }
  }

  lemma DropApart<R>(s: Server<R>, id: uint32)
    requires PendingApart(s)
    ensures PendingApart(Disconnect(s, id))
  {
    DisconnectWF(s, id);
    WithoutIdApart(s.heap, s.pending, id);
  }

  lemma PushApart<R>(s: Server<R>, id: uint32, data: seq<byte>)
    requires PendingApart(s) && |data| < 0x1_0000_0000 && TestHolds(s.bufferSize, RELIABLE_SIZE, |data|)
    ensures PendingApart(SendReliable(s, id, data).0)
  {
    SendWF(s, id, data);
    if id in s.byId && SendReliable(s, id, data).1 {
      var r := s.byId[id];
      IndexedApart(s, r, s.heap[r].(queue := s.heap[r].queue + [data]));
    }
  }

  lemma CallFresh<R>(s: Server<R>, call: Call<R>)
    requires PendingApart(s) && Legal(s, call)
    ensures FreshSuccess(After(s, call), if call.Process? then call.time else 0)
  {
    CallWF(s, call);
    match call
    case Process(order, time) => PollFresh(s, order, time);
    case Drop(id) => DropApart(s, id);
    case PushReliable(id, data) => PushApart(s, id, data);
    case PushUnreliable(id, data) => SendUnreliableOnlySends(s, id, data);
    case _ =>
  }

  lemma {:induction false} RunApart<R>(s: Server<R>, h: History, calls: seq<Call<R>>)
    requires PendingApart(s) && Lawful(s, calls)
    ensures PendingApart(Final(s, h, calls).0)
    decreases |calls|
  {
    if calls != [] {
      CallFresh(s, calls[0]);
      RunApart(After(s, calls[0]).s, HistoryAfter(s, h, calls[0]), calls[1..]);
    }
  }

  /** After every run of a new server, a poll that reports SUCCESS leaves the endpoint connected and heard from now,
      with nothing queued, at bit 0, with the reliable timer stopped and no ping. */
  lemma SuccessStartsFresh<R>(s: Server<R>, calls: seq<Call<R>>, order: seq<uint32>, time: int)
    requires NewServer(s) && Lawful(s, calls) && Visits(order, Final(s, NO_HISTORY, calls).0.byId.Keys)
    ensures var o := ProcessEvents(Final(s, NO_HISTORY, calls).0, order, time);
            IsSuccess(o.event) ==> o.event.value.id in o.s.byId && o.s.byId[o.event.value.id] in o.s.heap
                                   && Starts(o.s.heap[o.s.byId[o.event.value.id]], time)
  {
    RunApart(s, NO_HISTORY, calls);
    PollFresh(Final(s, NO_HISTORY, calls).0, order, time);
  }
}
