// Whole runs of one server: any sequence of API calls, polls and arriving datagrams.

module Runs {
  import opened Bytes
  import opened Message
  import opened Client
  import opened ServerSpec
  import opened Ledger

  // ---- calls and runs ----

  datatype Call<R> =
    | Connect(r: R, outgoing: Address, pingPeriod: int, timeoutPeriod: int, time: int)
    | Drop(id: uint32)
    | PushReliable(id: uint32, data: seq<byte>)
    | PushUnreliable(id: uint32, data: seq<byte>)
    | Process(order: seq<uint32>, time: int)
    | Arrive(d: Datagram)

  /** udcTryConnectIPv4/6 with a nonzero timeout is this call with the periods it passes. */
  lemma TryConnectIsConnect<R>(s: Server<R>, r: R, outgoing: Address, timeout: uint32, time: int)
    requires WF(s) && timeout != 0 && r !in s.heap && s.idCounter < 0xFFFF_FFFF
    ensures After(s, Connect(r, outgoing, PassedPingPeriod(timeout), PassedTimeoutPeriod(timeout), time)).s
            == TryConnect(s, r, outgoing, timeout, time).0
  {
  }

  /** What the API asks of a call; there are fewer than 2^32 connects, each with a fresh pointer, and no message is so
      large that the 32-bit size test takes it for one that fits. */
  ghost predicate Legal<R>(s: Server<R>, call: Call<R>)
    requires WF(s)
  {
    match call
    case Connect(r, _, _, _, _) => r !in s.heap && s.idCounter < 0xFFFF_FFFF
    case PushReliable(_, data) => |data| < 0x1_0000_0000 && TestHolds(s.bufferSize, RELIABLE_SIZE, |data|)
    case PushUnreliable(_, data) => |data| < 0x1_0000_0000 && TestHolds(s.bufferSize, HEADER_SIZE, |data|)
    case Process(order, _) => Visits(order, s.byId.Keys)
    case _ => true
  }

  ghost function After<R>(s: Server<R>, call: Call<R>): Outcome<R>
    requires WF(s) && Legal(s, call)
  {
    match call
    case Connect(r, outgoing, pingPeriod, timeoutPeriod, time) =>
      Outcome(AddPending(s, r, outgoing, pingPeriod, timeoutPeriod, time), None)
    case Drop(id) => Outcome(Disconnect(s, id), None)
    case PushReliable(id, data) => Outcome(SendReliable(s, id, data).0, None)
    case PushUnreliable(id, data) => Outcome(SendUnreliable(s, id, data).0, None)
    case Process(order, time) => ProcessEvents(s, order, time)
    case Arrive(d) => Outcome(s.(inbox := s.inbox + [d]), None)
  }

  ghost function HistoryAfter<R>(s: Server<R>, h: History, call: Call<R>): History
    requires WF(s) && Legal(s, call)
  {
    if call.Drop? then Dropped(s, h, call.id) else Record(h, After(s, call).event)
  }

  lemma CallWF<R>(s: Server<R>, call: Call<R>)
    requires WF(s) && Legal(s, call)
    ensures WF(After(s, call).s)
  {
    match call
    case Connect(r, outgoing, pingPeriod, timeoutPeriod, time) =>
      AddPendingWF(s, r, outgoing, pingPeriod, timeoutPeriod, time);
    case Drop(id) => DisconnectWF(s, id);
    case PushReliable(id, data) => SendWF(s, id, data);
    case PushUnreliable(id, data) => SendUnreliableOnlySends(s, id, data);
    case Process(order, time) => ProcessEventsWF(s, order, time);
    case Arrive(d) =>
  }

  ghost predicate Lawful<R>(s: Server<R>, calls: seq<Call<R>>)
    requires WF(s)
    decreases |calls|
  {
    calls != [] ==> Legal(s, calls[0]) && (CallWF(s, calls[0]); Lawful(After(s, calls[0]).s, calls[1..]))
  }

  ghost function Final<R>(s: Server<R>, h: History, calls: seq<Call<R>>): (r: (Server<R>, History))
    requires WF(s) && Lawful(s, calls)
    ensures WF(r.0)
    decreases |calls|
  {
    if calls == [] then (s, h)
    else
      CallWF(s, calls[0]);
      Final(After(s, calls[0]).s, HistoryAfter(s, h, calls[0]), calls[1..])
  }

  predicate NewServer<R>(s: Server<R>) {
    && RELIABLE_SIZE <= s.bufferSize && s.idCounter == 0 && s.prefix == s.signature
    && s.pending == [] && s.byId == map[] && s.byAddress == map[] && s.heap == map[] && s.outbox == []
  }

  const NO_HISTORY: History := History([], {}, {}, map[])

  // ---- honest handshakes ----

  /** If this turn of the receive loop completes a connection, the handshake came from the address the client sends
      to. */
  ghost predicate HonestTurn<R>(s: Server<R>, d: Datagram, time: int)
    requires WF(s)
  {
    match HandleDatagram(s, d, time).event
    case Some(ConnectionSuccess(_)) => s.pending != [] && d.address == s.heap[s.pending[0]].outgoing
    case _ => true
  }

  /** The receive loop stops at the first connection it completes, so there is at most one turn to ask about. */
  ghost predicate HonestReceive<R>(s: Server<R>, offered: nat, time: int)
    requires WF(s)
    decreases |s.inbox|
  {
    match Receive(s.inbox, offered)
    case Received(d) =>
      var s1 := s.(inbox := s.inbox[1..]);
      HandleDatagramWF(s1, d, time);
      var o := HandleDatagram(s1, d, time);
      if o.event.Some? then HonestTurn(s1, d, time) else HonestReceive(o.s, |d.bytes|, time)
    case _ => true
  }

  ghost predicate HonestPoll<R>(s: Server<R>, order: seq<uint32>, time: int)
    requires WF(s) && forall id <- order :: id in s.byId
  {
    UpdatePendingClientsWF(s, time);
    var o1 := UpdatePendingClients(s, time);
    if o1.event.Some? then true
    else
      UpdateClientsWF(o1.s, order, time);
      var o2 := UpdateClients(o1.s, order, time);
      o2.event.None? ==> HonestReceive(o2.s, o2.s.bufferSize, time)
  }

  ghost predicate HonestCall<R>(s: Server<R>, call: Call<R>)
    requires WF(s) && Legal(s, call)
  {
    call.Process? ==> HonestPoll(s, call.order, call.time)
  }

  /** Every connection the run completes is completed by a handshake from the address its client sends to. */
  ghost predicate HonestRun<R>(s: Server<R>, calls: seq<Call<R>>)
    requires WF(s) && Lawful(s, calls)
    decreases |calls|
  {
    calls != [] ==> HonestCall(s, calls[0]) && (CallWF(s, calls[0]); HonestRun(After(s, calls[0]).s, calls[1..]))
  }

  // ---- what the stages of a poll keep ----

  lemma UpdatePendingKeeps<R>(s: Server<R>, time: int, h: History)
    requires IdBook(s, h)
    ensures Keeps(s, h, UpdatePendingClients(s, time), true)
  {
    var o := UpdatePendingClients(s, time);
    UpdatePendingClientsWF(s, time);
    if o.event.Some? {
      TimeoutKeeps(s, h);
    } else {
      UpdatePendingSame(s, time);
      SameBookKeeps(s, o.s, h);
    }
  }

  lemma UpdatePendingSame<R>(s: Server<R>, time: int)
    requires WF(s) && UpdatePendingClients(s, time).event.None?
    ensures SameBook(s, UpdatePendingClients(s, time).s)
  {
    if s.pending != [] {
      SetClientSame(s, s.pending[0], RetryConnecting(s.heap[s.pending[0]], time));
    }
  }

  lemma SetClientSame<R>(s: Server<R>, r: R, c: ClientState)
    requires r in s.heap && SameIdentity(s.heap[r], c) && c.connected == s.heap[r].connected
    ensures SameBook(s, SetClient(s, r, c))
  {
  }

  lemma UpdateClientKeeps<R>(s: Server<R>, id: uint32, time: int, h: History)
    requires IdBook(s, h) && id in s.byId
    ensures Keeps(s, h, UpdateClient(s, id, time), true)
  {
    var o := UpdateClient(s, id, time);
    UpdateClientWF(s, id, time);
    UpdateClientTables(s, id, time);
    if o.event.Some? {
      LostKeeps(s, o.s, id, h);
    } else {
      SameBookKeeps(s, o.s, h);
    }
  }

  /** A pass over a client moves nothing between the tables, and touches the flag only together with an event. */
  lemma UpdateClientTables<R>(s: Server<R>, id: uint32, time: int)
    requires WF(s) && id in s.byId
    ensures var o := UpdateClient(s, id, time);
            && SameTablesAndIds(s, o.s)
            && o.event == (if o.event.Some? then Some(ConnectionLost(s.heap[s.byId[id]].id)) else None)
            && (o.event.Some? ==> s.heap[s.byId[id]].connected)
            && forall r <- s.heap ::
                 o.s.heap[r].connected == if o.event.Some? && r == s.byId[id] then false else s.heap[r].connected
  {
    UpdateClientIsPoll(s, id, time);
    Client.PollKeeps(s.heap[s.byId[id]], time);
  }

  ghost predicate SameTablesAndIds<R>(s: Server<R>, t: Server<R>) {
    && s.idCounter == t.idCounter && s.pending == t.pending && s.byId == t.byId && s.byAddress == t.byAddress
    && s.heap.Keys == t.heap.Keys && forall r <- s.heap :: SameIdentity(s.heap[r], t.heap[r])
  }

  lemma LostKeeps<R>(s: Server<R>, t: Server<R>, id: uint32, h: History)
    requires IdBook(s, h) && WF(t) && id in s.byId && SameTablesAndIds(s, t) && s.heap[s.byId[id]].connected
    requires forall r <- s.heap :: t.heap[r].connected == if r == s.byId[id] then false else s.heap[r].connected
    ensures Keeps(s, h, Outcome(t, Some(ConnectionLost(s.heap[s.byId[id]].id))), true)
  {
    SameIdsKeep(s, t, h, Record(h, Some(ConnectionLost(s.heap[s.byId[id]].id))));
    if IndexBook(s, h) {
      ToggleKeeps(s, t, id, h);
    }
  }

  lemma {:induction false} UpdateClientsKeeps<R>(s: Server<R>, order: seq<uint32>, time: int, h: History)
    requires IdBook(s, h) && forall id <- order :: id in s.byId
    ensures Keeps(s, h, UpdateClients(s, order, time), true)
    decreases |order|
  {
    if order != [] {
      UpdateClientKeeps(s, order[0], time, h);
      UpdateClientWF(s, order[0], time);
      var o := UpdateClient(s, order[0], time);
      if o.event.None? {
        UpdateClientsKeeps(o.s, order[1..], time, h);
      }
    }
  }

  /** A pong, or a reliable handshake, from a known address: the flag changes only together with an event. */
  lemma RefreshKeeps<R>(s: Server<R>, from: Address, c: ClientState, h: History)
    requires IdBook(s, h) && from in s.byAddress && Fits(c, s.bufferSize)
    requires SameIdentity(s.heap[s.byAddress[from]], c) && c.connected
    ensures var r := s.byAddress[from];
            var event := if s.heap[r].connected then None else Some(ConnectionRegained(s.heap[r].id));
            Keeps(s, h, Outcome(SetClient(s, r, c), event), true)
  {
    var r := s.byAddress[from];
    SetClientWF(s, r, c);
    if s.heap[r].connected {
      SetClientSame(s, r, c);
      SameBookKeeps(s, SetClient(s, r, c), h);
    } else {
      RegainKeeps(s, from, c, h);
    }
  }

  lemma RegainKeeps<R>(s: Server<R>, from: Address, c: ClientState, h: History)
    requires IdBook(s, h) && from in s.byAddress && WF(SetClient(s, s.byAddress[from], c))
    requires var d := s.heap[s.byAddress[from]]; SameIdentity(d, c) && c.connected && !d.connected
    ensures var r := s.byAddress[from];
            Keeps(s, h, Outcome(SetClient(s, r, c), Some(ConnectionRegained(s.heap[r].id))), true)
  {
    var r := s.byAddress[from];
    SameIdsKeep(s, SetClient(s, r, c), h, Record(h, Some(ConnectionRegained(s.heap[r].id))));
    if IndexBook(s, h) {
      RegainToggles(s, from, c, h);
    }
  }

  lemma RegainToggles<R>(s: Server<R>, from: Address, c: ClientState, h: History)
    requires IdBook(s, h) && IndexBook(s, h) && from in s.byAddress && WF(SetClient(s, s.byAddress[from], c))
    requires var d := s.heap[s.byAddress[from]]; SameIdentity(d, c) && c.connected && !d.connected
    ensures var id := s.heap[s.byAddress[from]].id;
            && IndexBook(SetClient(s, s.byAddress[from], c), Record(h, Some(ConnectionRegained(id))))
            && id !in h.timedOut && id !in h.disconnected
  {
    var r := s.byAddress[from];
    assert s.byId[s.heap[r].id] == r;
    ToggleKeeps(s, SetClient(s, r, c), s.heap[r].id, h);
  }

  lemma AcceptHandshakeFits(c: ClientState, state: ReliableState, bufferSize: uint32)
    requires Fits(c, bufferSize)
    ensures Fits(AcceptHandshake(c, state), bufferSize) && SameIdentity(c, AcceptHandshake(c, state))
  {
  }

  lemma SameTables<R>(s: Server<R>, t: Server<R>, h: History)
    requires IdBook(s, h)
    requires t == s.(outbox := t.outbox, reliableStates := t.reliableStates, prefix := t.prefix, inbox := t.inbox)
    ensures IdBook(t, h) && (IndexBook(s, h) <==> IndexBook(t, h))
  {
    SameBookKeeps(s, t, h);
    SameBookKeeps(t, s, h);
  }

  /** Requests, pings, messages and resets touch none of the tables. */
  lemma NeutralPacketKeeps<R>(s: Server<R>, from: Address, p: Packet, time: int, h: History)
    requires IdBook(s, h)
    requires p.ConnectionRequest? || p.Ping? || p.Unreliable? || p.ReliableReset? || p.Reliable?
    ensures Keeps(s, h, HandlePacket(s, from, p, time), true)
  {
    NeutralPacketTables(s, from, p, time);
    SameTables(s, HandlePacket(s, from, p, time).s, h);
  }

  lemma NeutralPacketTables<R>(s: Server<R>, from: Address, p: Packet, time: int)
    requires WF(s)
    requires p.ConnectionRequest? || p.Ping? || p.Unreliable? || p.ReliableReset? || p.Reliable?
    ensures var o := HandlePacket(s, from, p, time);
            && o.s == s.(outbox := o.s.outbox, reliableStates := o.s.reliableStates)
            && (o.event.Some? ==> o.event.value.ReceiveMessage?)
  {
  }

  lemma PongKeeps<R>(s: Server<R>, from: Address, stamp: uint32, time: int, h: History)
    requires IdBook(s, h)
    ensures Keeps(s, h, AcceptPong(s, from, stamp, time), true)
  {
    if from in s.byAddress && time >= stamp {
      RefreshKeeps(s, from, ReceivePong(s.heap[s.byAddress[from]], stamp, time), h);
    }
  }

  lemma ReliableHandshakeKeeps<R>(s: Server<R>, from: Address, state: ReliableState, stamp: uint32, time: int,
          h: History)
    requires IdBook(s, h)
    ensures Keeps(s, h, AcceptReliableHandshake(s, from, state, stamp, time), true)
  {
    if from in s.byAddress && time >= stamp {
      AcceptHandshakeFits(s.heap[s.byAddress[from]], state, s.bufferSize);
      RefreshKeeps(s, from, ReceiveReliableHandshake(s.heap[s.byAddress[from]], state, stamp, time), h);
    }
  }

  lemma ConnectionKeeps<R>(s: Server<R>, from: Address, id: uint32, time: int, h: History)
    requires IdBook(s, h)
    ensures Keeps(s, h, AcceptConnection(s, from, id, time), s.pending != [] && from == s.heap[s.pending[0]].outgoing)
    ensures AcceptConnection(s, from, id, time).event.None? ==> Keeps(s, h, AcceptConnection(s, from, id, time), true)
  {
    if AcceptConnection(s, from, id, time).event.Some? {
      AcceptKeeps(s, from, id, time, h);
    }
  }

  /** Whether a packet, if it completes a connection, comes from the address the client sends to. */
  ghost predicate HonestPacket<R>(s: Server<R>, from: Address, p: Packet, time: int)
    requires WF(s)
  {
    match HandlePacket(s, from, p, time).event
    case Some(ConnectionSuccess(_)) => s.pending != [] && from == s.heap[s.pending[0]].outgoing
    case _ => true
  }

  lemma HandlePacketKeeps<R>(s: Server<R>, from: Address, p: Packet, time: int, h: History)
    requires IdBook(s, h)
    ensures Keeps(s, h, HandlePacket(s, from, p, time), HonestPacket(s, from, p, time))
  {
    match p
    case ConnectionHandshake(id) => ConnectionKeeps(s, from, id, time, h);
    case Pong(stamp) => PongKeeps(s, from, stamp, time, h);
    case HandshakeReset(stamp) => ReliableHandshakeKeeps(s, from, -1, stamp, time, h);
    case Handshake(bit, stamp) => ReliableHandshakeKeeps(s, from, bit, stamp, time, h);
    case _ => NeutralPacketKeeps(s, from, p, time, h);
  }

  lemma HandleDatagramKeeps<R>(s: Server<R>, d: Datagram, time: int, h: History)
    requires IdBook(s, h)
    ensures Keeps(s, h, HandleDatagram(s, d, time), HonestTurn(s, d, time))
  {
    HandleDatagramIs(s, d, time);
    match Parse(s.signature, d.bytes)
    case None => SameTables(s, HandleDatagram(s, d, time).s, h);
    case Some(p) =>
      var s1 := s.(prefix := s.signature);
      SameTables(s, s1, h);
      HandlePacketKeeps(s1, d.address, p, time, h);
  }

  lemma {:induction false} ReceiveMessagesKeeps<R>(s: Server<R>, offered: nat, time: int, h: History)
    requires IdBook(s, h)
    ensures Keeps(s, h, ReceiveMessages(s, offered, time), HonestReceive(s, offered, time))
    decreases |s.inbox|
  {
    match Receive(s.inbox, offered)
    case Nothing =>
    case Failed(landed) => SameTables(s, ReceiveMessages(s, offered, time).s, h);
    case Received(d) =>
      var s1 := s.(inbox := s.inbox[1..]);
      SameTables(s, s1, h);
      HandleDatagramWF(s1, d, time);
      HandleDatagramKeeps(s1, d, time, h);
      var o := HandleDatagram(s1, d, time);
      if o.event.None? {
        ReceiveMessagesKeeps(o.s, |d.bytes|, time, h);
      }
  }

  lemma ProcessEventsKeeps<R>(s: Server<R>, order: seq<uint32>, time: int, h: History)
    requires IdBook(s, h) && forall id <- order :: id in s.byId
    ensures Keeps(s, h, ProcessEvents(s, order, time), HonestPoll(s, order, time))
  {
    UpdatePendingKeeps(s, time, h);
    UpdatePendingClientsWF(s, time);
    var o1 := UpdatePendingClients(s, time);
    if o1.event.None? {
      UpdateClientsKeeps(o1.s, order, time, h);
      UpdateClientsWF(o1.s, order, time);
      var o2 := UpdateClients(o1.s, order, time);
      if o2.event.None? {
        ReceiveMessagesKeeps(o2.s, o2.s.bufferSize, time, h);
      }
    }
  }

  // ---- what runs keep ----

  lemma CallKeeps<R>(s: Server<R>, h: History, call: Call<R>)
    requires IdBook(s, h) && Legal(s, call)
    ensures IdBook(After(s, call).s, HistoryAfter(s, h, call))
    ensures IndexBook(s, h) ==> Live(h, After(s, call).event)
    ensures IndexBook(s, h) && HonestCall(s, call) ==> IndexBook(After(s, call).s, HistoryAfter(s, h, call))
  {
    match call
    case Connect(r, outgoing, pingPeriod, timeoutPeriod, time) =>
      ConnectKeeps(s, r, outgoing, pingPeriod, timeoutPeriod, time, h);
    case Drop(id) => DisconnectKeeps(s, id, h);
    case PushReliable(id, data) => SendReliableKeeps(s, id, data, h);
    case PushUnreliable(id, data) => SendUnreliableKeeps(s, id, data, h);
    case Process(order, time) => ProcessEventsKeeps(s, order, time, h);
    case Arrive(d) => SameBookKeeps(s, After(s, call).s, h);
  }

  lemma NewBook<R>(s: Server<R>)
    requires NewServer(s)
    ensures Book(s, NO_HISTORY)
  {
    assert forall id: uint32 :: Places(s, NO_HISTORY, id) == 0;
  }

  lemma {:induction false} RunKeepsIds<R>(s: Server<R>, h: History, calls: seq<Call<R>>)
    requires IdBook(s, h) && Lawful(s, calls)
    ensures IdBook(Final(s, h, calls).0, Final(s, h, calls).1)
    decreases |calls|
  {
    if calls != [] {
      CallKeeps(s, h, calls[0]);
      RunKeepsIds(After(s, calls[0]).s, HistoryAfter(s, h, calls[0]), calls[1..]);
    }
  }

  lemma {:induction false} RunKeepsBook<R>(s: Server<R>, h: History, calls: seq<Call<R>>)
    requires Book(s, h) && Lawful(s, calls) && HonestRun(s, calls)
    ensures Book(Final(s, h, calls).0, Final(s, h, calls).1)
    decreases |calls|
  {
    if calls != [] {
      CallKeeps(s, h, calls[0]);
      RunKeepsBook(After(s, calls[0]).s, HistoryAfter(s, h, calls[0]), calls[1..]);
    }
  }

  /** After every run of a new server, whoever sends what from where: outcomes in connect order and before all pending
      ids, and each issued id in exactly one of pending, connected, timed out and disconnected. */
  lemma IdsAlways<R>(s: Server<R>, calls: seq<Call<R>>)
    requires NewServer(s) && Lawful(s, calls)
    ensures IdBook(Final(s, NO_HISTORY, calls).0, Final(s, NO_HISTORY, calls).1)
  {
    NewBook(s);
    RunKeepsIds(s, NO_HISTORY, calls);
  }

  /** If the connections were completed from the right addresses, moreover: the indexes in agreement, every endpoint's
      events a prefix of SUCCESS (LOST REGAINED)* or the single TIMEOUT, and its connected flag what the last event
      says. */
  lemma BookAlways<R>(s: Server<R>, calls: seq<Call<R>>)
    requires NewServer(s) && Lawful(s, calls) && HonestRun(s, calls)
    ensures Book(Final(s, NO_HISTORY, calls).0, Final(s, NO_HISTORY, calls).1)
  {
    NewBook(s);
    RunKeepsBook(s, NO_HISTORY, calls);
  }

  /** And no later poll reports anything about an endpoint that timed out or was disconnected. */
  lemma SilentAfterLeaving<R>(s: Server<R>, calls: seq<Call<R>>, order: seq<uint32>, time: int)
    requires NewServer(s) && Lawful(s, calls) && HonestRun(s, calls)
    requires Visits(order, Final(s, NO_HISTORY, calls).0.byId.Keys)
    ensures var (t, h) := Final(s, NO_HISTORY, calls); Live(h, ProcessEvents(t, order, time).event)
  {
    BookAlways(s, calls);
    var (t, h) := Final(s, NO_HISTORY, calls);
    CallKeeps(t, h, Call<R>.Process(order, time));
  }
}
