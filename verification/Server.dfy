// The server object (src/UdcServer.cpp, src/udp_connect.cpp): tables of shared clients and one byte
// buffer, updated in place. Every method is proved against its function in ServerSpec.

module UdcServerImpl {
  import opened Bytes
  import opened Message
  import opened Client
  import Spec = ServerSpec
  import opened ServerSpec

  datatype EventType =
    | CONNECTION_SUCCESS | CONNECTION_TIMEOUT | CONNECTION_LOST | CONNECTION_REGAINED
    | RECEIVE_MESSAGE_IPV4 | RECEIVE_MESSAGE_IPV6

  datatype EventRecord = EventRecord(eventType: EventType, endPointId: uint32, address: Address, msgIndex: nat,
      msgSize: nat)

  /** The event record, read together with the message buffer, tells of `e`. */
  predicate Reports(record: EventRecord, buffer: seq<byte>, e: Event) {
    match e
    case ConnectionSuccess(id) => record.eventType == CONNECTION_SUCCESS && record.endPointId == id
    case ConnectionTimeout(id) => record.eventType == CONNECTION_TIMEOUT && record.endPointId == id
    case ConnectionLost(id) => record.eventType == CONNECTION_LOST && record.endPointId == id
    case ConnectionRegained(id) => record.eventType == CONNECTION_REGAINED && record.endPointId == id
    case ReceiveMessage(from, index, payload) =>
      && record.eventType == (if from.IPv4? then RECEIVE_MESSAGE_IPV4 else RECEIVE_MESSAGE_IPV6)
      && record.address == from
      && record.msgIndex == index && record.msgSize == |payload|
      && index + |payload| <= |buffer| && buffer[index..index + |payload|] == payload
  }

  /** The socket as the server sees it: datagrams waiting, and everything handed over for sending. */
  class UdcSocketMux {
    var inbox: seq<Datagram>
    var outbox: seq<Datagram>

    constructor ()
      ensures inbox == [] && outbox == []
    {
      inbox, outbox := [], [];
    }

    method SendTo(to: Address, buffer: array<byte>, size: nat)
      requires size <= buffer.Length
      modifies this`outbox
      ensures outbox == old(outbox) + [Datagram(to, buffer[..size])]
    {
      outbox := outbox + [Datagram(to, buffer[..size])];
    }

    method ReceiveFrom(buffer: array<byte>, offered: nat) returns (ok: bool, from: Address, size: nat)
      requires offered <= buffer.Length
      modifies this`inbox, buffer
      ensures match Spec.Receive(old(inbox), offered)
              case Nothing => !ok && inbox == old(inbox) && buffer[..] == old(buffer[..])
              case Failed(landed) => !ok && inbox == old(inbox)[1..]
                  && buffer[..] == Overwrite(old(buffer[..]), 0, landed)
              case Received(d) => ok && from == d.address && size == |d.bytes| && inbox == old(inbox)[1..]
                                  && buffer[..] == Overwrite(old(buffer[..]), 0, d.bytes)
    {
      from, size := IPv4([], 0), offered;
      if inbox == [] {
        return false, from, size;
      }
      var d := inbox[0];
      inbox := inbox[1..];
      if |d.bytes| == 0 {
        CopyInto(buffer, 0, []);
        return false, from, size;
      }
      if |d.bytes| > offered {
        CopyInto(buffer, 0, d.bytes[..offered]);
        return false, from, size;
      }
      CopyInto(buffer, 0, d.bytes);
      return true, d.address, |d.bytes|;
    }
  }

  class UdcServer {
    const packetSignature: Signature
    const messageBuffer: array<byte>
    const socket: UdcSocketMux
    var idCounter: uint32
    var eventBuffer: EventRecord
    var pendingClients: seq<UdcClient>
    var clientsById: map<uint32, UdcClient>
    var clientsByAddress: map<Address, UdcClient>
    var reliableStates: map<Address, Bit>

    /** Every client ever created through this server. */
    ghost var clients: set<UdcClient>

    predicate Sized() {
      RELIABLE_SIZE <= messageBuffer.Length < 0x1_0000_0000
    }

    ghost function Heap(): map<UdcClient, ClientState>
      reads this`clients, clients
    {
      map c | c in clients :: c.View()
    }

    ghost function View(): Server<UdcClient>
      requires Sized()
      reads this, clients, messageBuffer, socket
    {
      Spec.Server(packetSignature, messageBuffer.Length, idCounter, pendingClients, clientsById, clientsByAddress,
                  reliableStates, Heap(), messageBuffer[..4], socket.inbox, socket.outbox)
    }

    ghost predicate Valid()
      reads this, clients, messageBuffer, socket
    {
      Sized() && WF(View())
    }

    ghost predicate Returned(hasEvent: bool, event: Option<Event>)
      reads this, messageBuffer
    {
      hasEvent == event.Some? && (hasEvent ==> Reports(eventBuffer, messageBuffer[..], event.value))
    }

    /** udcCreateServer with a buffer of at least the minimum size. */
    constructor (signature: Signature, buffer: array<byte>, socket: UdcSocketMux)
      requires RELIABLE_SIZE <= buffer.Length < 0x1_0000_0000
      modifies buffer
      ensures Valid() && clients == {}
      ensures messageBuffer == buffer && this.socket == socket
      ensures View() == Spec.Server(signature, buffer.Length, 0, [], map[], map[], map[], map[], signature,
          socket.inbox, socket.outbox)
      ensures buffer[..] == Overwrite(old(buffer[..]), 0, signature)
    {
      packetSignature := signature;
      messageBuffer := buffer;
      this.socket := socket;
      idCounter := 0;
      eventBuffer := EventRecord(CONNECTION_SUCCESS, 0, IPv4([], 0), 0, 0);
      pendingClients := [];
      clientsById, clientsByAddress, reliableStates := map[], map[], map[];
      clients := {};
      new;
      SerializeMsgSignature(messageBuffer, packetSignature);
    }

    /** When one client changed, the heap changed at that client. */
    twostate lemma HeapChangedAt(c: UdcClient)
      requires c in old(clients) && clients == old(clients)
      requires forall d <- old(clients) :: d == c || unchanged(d)
      ensures Heap() == old(Heap())[c := c.View()]
    {
      assert forall d | d in old(clients) && d != c :: d.View() == old(d.View());
    }

    /** When only one client changed, the view changed at that client. */
    twostate lemma ClientChanged(c: UdcClient)
      requires Sized() && c in old(clients)
      requires unchanged(this, messageBuffer, socket)
      requires forall d <- old(clients) :: d == c || unchanged(d)
      ensures View() == SetClient(old(View()), c, c.View())
    {
      HeapChangedAt(c);
    }

    /** Writes the id byte and one word, and sends the nine bytes. */
    method SendWord(to: Address, p: Packet, word: uint32)
      requires Sized() && Body(p) == Encode32(word)
      modifies messageBuffer, socket`outbox
      ensures View() == Send(old(View()), to, p)
    {
      WriteWord(messageBuffer, p, word);
      socket.SendTo(to, messageBuffer, CONNECTION_SIZE);
    }

    /** Writes the id byte only over the received message, and sends the nine bytes back. */
    method SendReply(to: Address, msgId: byte, ghost p: Packet, ghost word: uint32)
      requires msgId == Tag(p)
      requires Sized() && Encode32(word) == messageBuffer[5..9] && Body(p) == Encode32(word)
      modifies messageBuffer, socket`outbox
      ensures View() == Send(old(View()), to, p)
      ensures messageBuffer[5..] == old(messageBuffer[5..])
    {
      WriteReply(messageBuffer, msgId, p, word);
      socket.SendTo(to, messageBuffer, CONNECTION_SIZE);
    }

    /** Fills the event record for a connection event. */
    method Report(e: Event)
      requires Sized() && !e.ReceiveMessage?
      modifies this`eventBuffer
      ensures View() == old(View()) && Returned(true, Some(e))
    {
      match e
      case ConnectionSuccess(id) => eventBuffer := eventBuffer.(eventType := CONNECTION_SUCCESS, endPointId := id);
      case ConnectionTimeout(id) => eventBuffer := eventBuffer.(eventType := CONNECTION_TIMEOUT, endPointId := id);
      case ConnectionLost(id) => eventBuffer := eventBuffer.(eventType := CONNECTION_LOST, endPointId := id);
      case ConnectionRegained(id) => eventBuffer := eventBuffer.(eventType := CONNECTION_REGAINED, endPointId := id);
    }

    // ---- src/UdcServer.cpp:301-338 ----

    method UpdatePending(time: int) returns (hasEvent: bool)
      requires Valid()
      modifies this`pendingClients, this`eventBuffer, messageBuffer, socket`outbox, clients
      ensures Valid() && clients == old(clients)
      ensures View() == UpdatePendingClients(old(View()), time).s
      ensures Returned(hasEvent, UpdatePendingClients(old(View()), time).event)
    {
      ghost var s := View();
      UpdatePendingClientsWF(s, time);
      if pendingClients == [] {
        return false;
      }
      var client := pendingClients[0];
      assert client in s.heap && s.heap[client] == client.View();
      if NeedsConnectionTimeoutEvent(client.View(), time) {
        Report(ConnectionTimeout(client.id));
        pendingClients := pendingClients[1..];
        assert View() == s.(pending := s.pending[1..]);
        return true;
      }
      if NeedsConnectionAttempt(client.View(), time) {
        Retry(client, time);
      }
      return false;
    }

    method Retry(client: UdcClient, time: int)
      requires Sized() && client in clients
      modifies client, messageBuffer, socket`outbox
      ensures View() == Send(SetClient(old(View()), client, RetryConnecting(old(client.View()), time)),
                             client.outgoingAddress, ConnectionRequest(client.id))
    {
      client.RetryConnectingAt(time);
      ClientChanged(client);
      SendWord(client.outgoingAddress, ConnectionRequest(client.id), client.id);
    }

    // ---- src/UdcServer.cpp:340-410 ----

    /** The reliable branch of the loop body. */
    method SendReliableMessages(client: UdcClient, time: int)
      requires Valid() && client in clients
      modifies messageBuffer, socket`outbox, client
      ensures View() == ReliableStage(old(View()), client, time)
    {
      ghost var s := View();
      assert s.heap[client] == client.View();
      if client.reliableMessages == [] {
        assert SetClient(s, client, s.heap[client]).heap == s.heap;
      } else if client.reliableState == -1 {
        assert SetClient(s, client, s.heap[client]).heap == s.heap;
        SendWord(client.outgoingAddress, ReliableReset(Low32(time)), Low32(time));
      } else if NeedsReliableReset(client.View(), time) {
        client.SetReliableState(-1);
        client.ClearSendReliable();
        HeapChangedAt(client);
      } else {
        SendFront(client, time);
        client.MarkSendReliable(time);
        HeapChangedAt(client);
      }
    }

    method SendFront(client: UdcClient, time: int)
      requires Valid() && client in clients && client.reliableMessages != [] && client.reliableState != -1
      modifies messageBuffer, socket`outbox
      ensures View() == Send(old(View()), client.outgoingAddress,
                             Reliable(if client.reliableState == 0 then 0 else 1, Low32(time),
                                      client.reliableMessages[0]))
    {
      var message := client.reliableMessages[0];
      assert client.View() == View().heap[client] && message in client.View().queue;
      SendReliablePacket(client.outgoingAddress,
                         Reliable(if client.reliableState == 0 then 0 else 1, Low32(time), message));
    }

    method SendReliablePacket(to: Address, p: Packet)
      requires Sized() && p.Reliable? && RELIABLE_SIZE + |p.data| <= messageBuffer.Length
      modifies messageBuffer, socket`outbox
      ensures View() == Send(old(View()), to, p)
    {
      WriteReliable(messageBuffer, p);
      socket.SendTo(to, messageBuffer, RELIABLE_SIZE + |p.data|);
    }

    /** One iteration of the loop; true when a lost connection is reported. */
    method ServeClient(id: uint32, time: int) returns (hasEvent: bool)
      requires Valid() && id in clientsById
      modifies this`eventBuffer, messageBuffer, socket`outbox, clients
      ensures Valid() && clients == old(clients)
      ensures View() == UpdateClient(old(View()), id, time).s
      ensures Returned(hasEvent, UpdateClient(old(View()), id, time).event)
    {
      ghost var s := View();
      var client := clientsById[id];
      assert client == s.byId[id] && client in s.heap;
      SendReliableMessages(client, time);
      SendPing(client, time);
      hasEvent := ReportLost(client, time);
      UpdateClientWF(s, id, time);
    }

    method SendPing(client: UdcClient, time: int)
      requires Sized() && client in clients
      modifies messageBuffer, socket`outbox
      ensures View() == PingStage(old(View()), client, time)
    {
      assert View().heap[client] == client.View();
      if NeedsPing(client.View(), time) {
        SendWord(client.outgoingAddress, Packet.Ping(Low32(time)), Low32(time));
      }
    }

    method ReportLost(client: UdcClient, time: int) returns (hasEvent: bool)
      requires Sized() && client in clients
      modifies this`eventBuffer, client
      ensures View() == LostStage(old(View()), client, time).s
      ensures Returned(hasEvent, LostStage(old(View()), client, time).event)
    {
      assert View().heap[client] == client.View();
      if NeedsConnectionLostEvent(client.View(), time) {
        client.SetLost();
        HeapChangedAt(client);
        Report(ConnectionLost(client.id));
        return true;
      }
      return false;
    }

    /** The loop over the id map, in the order `order` the map yields its keys. */
    method UpdateClientConnectionStatus(order: seq<uint32>, time: int) returns (hasEvent: bool)
      requires Valid() && forall id <- order :: id in clientsById
      modifies this`eventBuffer, messageBuffer, socket`outbox, clients
      ensures Valid() && clients == old(clients)
      ensures View() == UpdateClients(old(View()), order, time).s
      ensures Returned(hasEvent, UpdateClients(old(View()), order, time).event)
    {
      ghost var s := View();
      for i := 0 to |order|
        invariant Valid() && clients == old(clients) && clientsById == old(clientsById)
        invariant forall id <- order :: id in View().byId
        invariant UpdateClients(View(), order[i..], time) == UpdateClients(s, order, time)
      {
        UpdateClientWF(View(), order[i], time);
        assert order[i..][0] == order[i] && order[i..][1..] == order[i + 1..];
        hasEvent := ServeClient(order[i], time);
        if hasEvent {
          return true;
        }
      }
      assert order[|order|..] == [];
      return false;
    }

    // ---- src/UdcServer.cpp:412-498 ----

    method ProcessConnectionRequest(from: Address, ghost id: uint32)
      requires Valid() && Encode32(id) == messageBuffer[5..9]
      modifies messageBuffer, socket`outbox
      ensures Valid() && View() == Send(old(View()), from, ConnectionHandshake(id))
    {
      SendReply(from, CONNECTION_HANDSHAKE, ConnectionHandshake(id), id);
    }

    method ProcessConnectionHandshake(from: Address, time: int, ghost id: uint32) returns (hasEvent: bool)
      requires Valid() && Encode32(id) == messageBuffer[5..9]
      modifies this`pendingClients, this`clientsById, this`clientsByAddress, this`eventBuffer, clients
      ensures Valid() && clients == old(clients)
      ensures var o := AcceptConnection(old(View()), from, id, time);
              View() == o.s && Returned(hasEvent, o.event)
    {
      ghost var s := View();
      if pendingClients == [] {
        return false;
      }
      var client := pendingClients[0];
      assert client in s.heap && s.heap[client] == client.View();
      var endPointId := DeserializeWord(messageBuffer);
      if client.id != endPointId {
        return false;
      }
      if from in clientsByAddress {
        return false;
      }
      Complete(client, from, endPointId, time);
      AcceptConnectionWF(s, from, id, time);
      return true;
    }

    method Complete(client: UdcClient, from: Address, endPointId: uint32, time: int)
      requires Sized() && client in clients && pendingClients != [] && client == pendingClients[0]
      modifies this`pendingClients, this`clientsById, this`clientsByAddress, this`eventBuffer, client
      ensures View() == FrontToConnected(SetClient(old(View()), client,
                                                   ReceiveConnectionHandshake(old(client.View()), time)),
                                         from, endPointId)
      ensures Returned(true, Some(ConnectionSuccess(endPointId)))
    {
      client.ReceiveConnectionHandshakeAt(time);
      ClientChanged(client);
      CompleteConnection(from, endPointId);
      Report(ConnectionSuccess(endPointId));
    }

    method CompleteConnection(from: Address, endPointId: uint32)
      requires Sized() && pendingClients != []
      modifies this`pendingClients, this`clientsById, this`clientsByAddress
      ensures View() == FrontToConnected(old(View()), from, endPointId)
    {
      clientsById := clientsById[endPointId := pendingClients[0]];
      clientsByAddress := clientsByAddress[from := pendingClients[0]];
      pendingClients := pendingClients[1..];
    }

    method ProcessPing(from: Address, ghost stamp: uint32)
      requires Valid() && Encode32(stamp) == messageBuffer[5..9]
      modifies messageBuffer, socket`outbox
      ensures Valid() && View() == Send(old(View()), from, Pong(stamp))
    {
      SendReply(from, PONG, Pong(stamp), stamp);
    }

    method ProcessPong(from: Address, time: int, ghost stamp: uint32) returns (hasEvent: bool)
      requires Valid() && Encode32(stamp) == messageBuffer[5..9]
      modifies this`eventBuffer, clients
      ensures Valid() && clients == old(clients)
      ensures var o := AcceptPong(old(View()), from, stamp, time);
              View() == o.s && Returned(hasEvent, o.event)
    {
      if from !in clientsByAddress {
        return false;
      }
      var timeStamp := DeserializeWord(messageBuffer);
      if time < timeStamp {
        return false;
      }
      hasEvent := RefreshFrom(from, timeStamp, time);
    }

    /** The pong reaches the client indexed under its address. */
    method RefreshFrom(from: Address, timeStamp: uint32, time: int) returns (hasEvent: bool)
      requires Valid() && from in clientsByAddress && timeStamp <= time
      modifies this`eventBuffer, clients
      ensures Valid()
      ensures View() == AcceptPong(old(View()), from, timeStamp, time).s
      ensures Returned(hasEvent, AcceptPong(old(View()), from, timeStamp, time).event)
    {
      var client := clientsByAddress[from];
      assert client in View().heap && View().heap[client] == client.View();
      hasEvent := RefreshClient(client, timeStamp, time);
    }

    /** receivePong, and the event when it regains a lost connection. */
    method RefreshClient(client: UdcClient, timeStamp: uint32, time: int) returns (hasEvent: bool)
      requires Valid() && client in clients
      modifies this`eventBuffer, client
      ensures Valid()
      ensures View() == SetClient(old(View()), client, ReceivePong(old(client.View()), timeStamp, time))
      ensures Returned(hasEvent, if old(client.isConnected) then None else Some(ConnectionRegained(client.id)))
    {
      assert View().heap[client] == client.View();
      SetClientWF(View(), client, ReceivePong(client.View(), timeStamp, time));
      var regained := client.ReceivePongAt(timeStamp, time);
      ClientChanged(client);
      if regained {
        Report(ConnectionRegained(client.id));
      }
      return regained;
    }

    // ---- src/UdcServer.cpp:500-627 ----

    /** Fills the event record for a message that lies in the buffer from `index` on. */
    method ReportMessage(from: Address, index: nat, msgSize: nat)
      requires Sized() && index <= msgSize <= messageBuffer.Length
      modifies this`eventBuffer
      ensures View() == old(View())
      ensures Returned(true, Some(ReceiveMessage(from, index, messageBuffer[index..msgSize])))
    {
      eventBuffer := eventBuffer.(eventType := if from.IPv4? then RECEIVE_MESSAGE_IPV4 else RECEIVE_MESSAGE_IPV6,
                                  address := from, msgIndex := index, msgSize := msgSize - index);
      assert messageBuffer[..][index..msgSize] == messageBuffer[index..msgSize];
    }

    method ProcessReset(from: Address, ghost stamp: uint32)
      requires Valid() && Encode32(stamp) == messageBuffer[5..9]
      modifies this`reliableStates, messageBuffer, socket`outbox
      ensures Valid() && View() == HandlePacket(old(View()), from, ReliableReset(stamp), 0).s
    {
      ghost var states := reliableStates;
      if from in reliableStates {
        reliableStates := reliableStates[from := 0];
      }
      assert reliableStates == WithEntry(states, from, ReceiveReset(EntryOf(states, from)));
      SendReply(from, RELIABLE_HANDSHAKE_RESET, HandshakeReset(stamp), stamp);
    }

    method ProcessReliableMessage(bit: Bit, from: Address, msgSize: nat, ghost stamp: uint32) returns (hasEvent: bool)
      requires Valid() && RELIABLE_SIZE <= msgSize <= messageBuffer.Length && Encode32(stamp) == messageBuffer[5..9]
      modifies this`reliableStates, this`eventBuffer, messageBuffer, socket`outbox
      ensures Valid()
      ensures var o := HandlePacket(old(View()), from, Reliable(bit, stamp, old(messageBuffer[9..msgSize])), 0);
              View() == o.s && Returned(hasEvent, o.event)
    {
      var notInHash := from !in reliableStates;
      var process := notInHash || reliableStates[from] == bit;
      ghost var received := messageBuffer[..];
      FlipAndReply(bit, from, stamp);
      SliceOfTail(messageBuffer[..], received, 5, 9, msgSize);
      assert messageBuffer[9..msgSize] == messageBuffer[..][9..msgSize]
          && received[9..msgSize] == old(messageBuffer[9..msgSize]);
      if process {
        ReportMessage(from, RELIABLE_SIZE, msgSize);
        return true;
      }
      return false;
    }

    method FlipAndReply(bit: Bit, from: Address, ghost stamp: uint32)
      requires Sized() && Encode32(stamp) == messageBuffer[5..9]
      modifies this`reliableStates, messageBuffer, socket`outbox
      ensures View() == Send(old(View()).(reliableStates := old(reliableStates)[from := Flip(bit)]), from,
          Handshake(bit, stamp))
      ensures messageBuffer[..][5..] == old(messageBuffer[..])[5..]
    {
      reliableStates := reliableStates[from := if bit == 0 then 1 else 0];
      SendReply(from, if bit == 0 then RELIABLE_HANDSHAKE_0 else RELIABLE_HANDSHAKE_1, Handshake(bit, stamp), stamp);
      assert messageBuffer[..][5..] == messageBuffer[5..] && old(messageBuffer[..])[5..] == old(messageBuffer[5..]);
    }

    method ProcessReliableHandshake(state: ReliableState, from: Address, time: int, ghost stamp: uint32)
      returns (hasEvent: bool)
      requires Valid() && Encode32(stamp) == messageBuffer[5..9]
      modifies this`eventBuffer, clients
      ensures Valid() && clients == old(clients)
      ensures var o := AcceptReliableHandshake(old(View()), from, state, stamp, time);
              View() == o.s && Returned(hasEvent, o.event)
    {
      if from !in clientsByAddress {
        return false;
      }
      var timeStamp := DeserializeWord(messageBuffer);
      if time < timeStamp {
        return false;
      }
      hasEvent := AcknowledgeFrom(from, state, timeStamp, time);
    }

    /** The handshake reaches the client indexed under its address. */
    method AcknowledgeFrom(from: Address, state: ReliableState, timeStamp: uint32, time: int)
      returns (hasEvent: bool)
      requires Valid() && from in clientsByAddress && timeStamp <= time
      modifies this`eventBuffer, clients
      ensures Valid()
      ensures View() == AcceptReliableHandshake(old(View()), from, state, timeStamp, time).s
      ensures Returned(hasEvent, AcceptReliableHandshake(old(View()), from, state, timeStamp, time).event)
    {
      var client := clientsByAddress[from];
      assert client in View().heap && View().heap[client] == client.View();
      hasEvent := AcknowledgeAndRefresh(client, state, timeStamp, time);
    }

    method AcknowledgeAndRefresh(client: UdcClient, state: ReliableState, timeStamp: uint32, time: int)
      returns (hasEvent: bool)
      requires Valid() && client in clients && timeStamp <= time
      modifies this`eventBuffer, client
      ensures Valid()
      ensures View() == SetClient(old(View()), client,
                                  ReceiveReliableHandshake(old(client.View()), state, timeStamp, time))
      ensures Returned(hasEvent, if old(client.isConnected) then None else Some(ConnectionRegained(client.id)))
    {
      ghost var heap := Heap();
      AcknowledgeReliable(client, state);
      UpdateTwice(heap, client, client.View(), ReceivePong(client.View(), timeStamp, time));
      hasEvent := RefreshClient(client, timeStamp, time);
    }

    method AcknowledgeReliable(client: UdcClient, state: ReliableState)
      requires Valid() && client in clients
      modifies client
      ensures Valid() && client.View() == AcceptHandshake(old(client.View()), state)
          && client.isConnected == old(client.isConnected)
      ensures View() == SetClient(old(View()), client, AcceptHandshake(old(client.View()), state))
    {
      assert View().heap[client] == client.View();
      SetClientWF(View(), client, AcceptHandshake(client.View(), state));
      var reliableState := client.reliableState;
      if state == reliableState {
        if reliableState != -1 && client.reliableMessages != [] {
          client.PopReliable();
        }
        client.SetReliableState(if state == 0 then 1 else 0);
        client.ClearSendReliable();
      }
      ClientChanged(client);
    }

    method ProcessUnreliable(from: Address, msgSize: nat) returns (hasEvent: bool)
      requires Valid() && HEADER_SIZE <= msgSize <= messageBuffer.Length
      modifies this`eventBuffer
      ensures View() == old(View())
      ensures hasEvent && Returned(true, Some(ReceiveMessage(from, HEADER_SIZE, messageBuffer[5..msgSize])))
    {
      ReportMessage(from, HEADER_SIZE, msgSize);
      return true;
    }

    // ---- src/UdcServer.cpp:153-299 ----

    method DispatchMessage(from: Address, msgSize: nat, time: int) returns (hasEvent: bool)
      requires Valid() && HEADER_SIZE <= msgSize <= messageBuffer.Length && messageBuffer[..4] == packetSignature
      modifies this, messageBuffer, socket`outbox, clients
      ensures Valid() && clients == old(clients)
      ensures View() == Dispatch(old(View()), from, old(messageBuffer[..msgSize]), time).s
      ensures Returned(hasEvent, Dispatch(old(View()), from, old(messageBuffer[..msgSize]), time).event)
    {
      ghost var word: uint32 := 0;
      if msgSize >= RELIABLE_SIZE {
        EncodeDecode32(messageBuffer[5..9]);
        word := Decode32(messageBuffer[5..9]);
      }
      if messageBuffer[4] <= 4 {
        hasEvent := DispatchDirect(from, msgSize, time, word);
      } else if messageBuffer[4] <= 7 {
        hasEvent := DispatchReliable(from, msgSize, time, word);
      } else {
        hasEvent := DispatchHandshake(from, msgSize, time, word);
      }
    }

    /** The cases of the switch for connections, pings and unreliable messages. */
    method DispatchDirect(from: Address, msgSize: nat, time: int, ghost word: uint32) returns (hasEvent: bool)
      requires Valid() && HEADER_SIZE <= msgSize <= messageBuffer.Length && messageBuffer[..4] == packetSignature
      requires messageBuffer[4] <= 4 && (msgSize >= RELIABLE_SIZE ==> Encode32(word) == messageBuffer[5..9])
      modifies this, messageBuffer, socket`outbox, clients
      ensures Valid() && clients == old(clients)
      ensures View() == Dispatch(old(View()), from, old(messageBuffer[..msgSize]), time).s
      ensures Returned(hasEvent, Dispatch(old(View()), from, old(messageBuffer[..msgSize]), time).event)
    {
      ghost var bytes := messageBuffer[..msgSize];
      assert bytes[..4] == packetSignature && (msgSize >= RELIABLE_SIZE ==> bytes[5..9] == Encode32(word));
      DecodeEncode32(word);
      var msgId := messageBuffer[4];
      assert bytes[4] == msgId;
      match msgId
      case 0 => if msgSize == CONNECTION_SIZE { ProcessConnectionRequest(from, word); }
                return false;
      case 1 => if msgSize == CONNECTION_SIZE { hasEvent := ProcessConnectionHandshake(from, time, word); return; }
                return false;
      case 2 => if msgSize == PINGPONG_SIZE { ProcessPing(from, word); }
                return false;
      case 3 => if msgSize == PINGPONG_SIZE { hasEvent := ProcessPong(from, time, word); return; }
                return false;
      case 4 => assert bytes[5..] == messageBuffer[5..msgSize];
                hasEvent := ProcessUnreliable(from, msgSize);
                return;
    }

    /** The cases for resets and reliable messages. */
    method DispatchReliable(from: Address, msgSize: nat, time: int, ghost word: uint32) returns (hasEvent: bool)
      requires Valid() && HEADER_SIZE <= msgSize <= messageBuffer.Length && messageBuffer[..4] == packetSignature
      requires 4 < messageBuffer[4] <= 7 && (msgSize >= RELIABLE_SIZE ==> Encode32(word) == messageBuffer[5..9])
      modifies this, messageBuffer, socket`outbox, clients
      ensures Valid() && clients == old(clients)
      ensures View() == Dispatch(old(View()), from, old(messageBuffer[..msgSize]), time).s
      ensures Returned(hasEvent, Dispatch(old(View()), from, old(messageBuffer[..msgSize]), time).event)
    {
      ghost var bytes := messageBuffer[..msgSize];
      assert bytes[..4] == packetSignature && (msgSize >= RELIABLE_SIZE ==> bytes[5..9] == Encode32(word));
      DecodeEncode32(word);
      var msgId := messageBuffer[4];
      assert bytes[4] == msgId;
      match msgId
      case 5 => if msgSize == RELIABLE_SIZE { ProcessReset(from, word); }
                return false;
      case 6 => if msgSize >= RELIABLE_SIZE {
                  assert bytes[9..] == messageBuffer[9..msgSize];
                  hasEvent := ProcessReliableMessage(0, from, msgSize, word);
                  return;
                }
                return false;
      case 7 => if msgSize >= RELIABLE_SIZE {
                  assert bytes[9..] == messageBuffer[9..msgSize];
                  hasEvent := ProcessReliableMessage(1, from, msgSize, word);
                  return;
                }
                return false;
    }

    /** The cases for their handshakes; other ids are ignored. */
    method DispatchHandshake(from: Address, msgSize: nat, time: int, ghost word: uint32) returns (hasEvent: bool)
      requires Valid() && HEADER_SIZE <= msgSize <= messageBuffer.Length && messageBuffer[..4] == packetSignature
      requires messageBuffer[4] > 7 && (msgSize >= RELIABLE_SIZE ==> Encode32(word) == messageBuffer[5..9])
      modifies this, messageBuffer, socket`outbox, clients
      ensures Valid() && clients == old(clients)
      ensures View() == Dispatch(old(View()), from, old(messageBuffer[..msgSize]), time).s
      ensures Returned(hasEvent, Dispatch(old(View()), from, old(messageBuffer[..msgSize]), time).event)
    {
      ghost var bytes := messageBuffer[..msgSize];
      assert bytes[..4] == packetSignature && (msgSize >= RELIABLE_SIZE ==> bytes[5..9] == Encode32(word));
      DecodeEncode32(word);
      var msgId := messageBuffer[4];
      assert bytes[4] == msgId;
      match msgId
      case 8 => if msgSize == RELIABLE_SIZE { hasEvent := ProcessReliableHandshake(-1, from, time, word); return; }
                return false;
      case 9 => if msgSize == RELIABLE_SIZE { hasEvent := ProcessReliableHandshake(0, from, time, word); return; }
                return false;
      case 10 => if msgSize == RELIABLE_SIZE { hasEvent := ProcessReliableHandshake(1, from, time, word); return; }
                 return false;
      case _ => return false;
    }

    /** One turn of the receive loop: the datagram `d` has just landed in the buffer of server state `s`. */
    method HandleReceived(from: Address, msgSize: nat, time: int, ghost s: Server<UdcClient>, ghost d: Datagram)
      returns (hasEvent: bool)
      requires Valid() && WF(s) && View() == s.(prefix := Land(s.prefix, d.bytes))
      requires d.address == from && msgSize == |d.bytes| <= messageBuffer.Length && messageBuffer[..msgSize] == d.bytes
      modifies this, messageBuffer, socket`outbox, clients
      ensures Valid() && clients == old(clients)
      ensures View() == HandleDatagram(s, d, time).s
      ensures Returned(hasEvent, HandleDatagram(s, d, time).event)
    {
      if msgSize < HEADER_SIZE {
        return false;
      }
      var signature := DeserializeMsgSignature(messageBuffer);
      if signature != packetSignature {
        RestoreSignature();
        return false;
      }
      hasEvent := DispatchMessage(from, msgSize, time);
    }

    method RestoreSignature()
      requires Sized()
      modifies messageBuffer
      ensures View() == old(View()).(prefix := packetSignature)
    {
      SerializeMsgSignature(messageBuffer, packetSignature);
      assert messageBuffer[..4] == messageBuffer[..][..4] == packetSignature;
    }

    /** Takes the next datagram into the buffer. */
    method ReceiveNext(offered: nat) returns (ok: bool, from: Address, size: nat)
      requires Sized() && offered <= messageBuffer.Length
      modifies messageBuffer, socket`inbox
      ensures match Spec.Receive(old(View()).inbox, offered)
              case Nothing => !ok && View() == old(View())
              case Failed(landed) =>
                && !ok
                && View() == old(View()).(inbox := old(View()).inbox[1..], prefix := Land(old(View()).prefix, landed))
              case Received(d) =>
                && ok && from == d.address && size == |d.bytes| <= offered && messageBuffer[..size] == d.bytes
                && View() == old(View()).(inbox := old(View()).inbox[1..], prefix := Land(old(View()).prefix, d.bytes))
    {
      ghost var before := messageBuffer[..];
      ghost var landed := match Spec.Receive(socket.inbox, offered)
                          case Nothing => []
                          case Failed(l) => l
                          case Received(d) => d.bytes;
      ok, from, size := socket.ReceiveFrom(messageBuffer, offered);
      LandOverwrite(before, landed);
      assert messageBuffer[..4] == messageBuffer[..][..4] && before[..4] == old(messageBuffer[..4]);
      if ok {
        assert messageBuffer[..size] == messageBuffer[..][..size];
      }
    }

    method ReceiveAll(time: int) returns (hasEvent: bool)
      requires Valid()
      modifies this, messageBuffer, socket, clients
      ensures Valid() && clients == old(clients)
      ensures View() == ReceiveMessages(old(View()), messageBuffer.Length, time).s
      ensures Returned(hasEvent, ReceiveMessages(old(View()), messageBuffer.Length, time).event)
    {
      ghost var start := View();
      var msgSize: nat := messageBuffer.Length;
      while true
        invariant Valid() && clients == old(clients) && msgSize <= messageBuffer.Length
        invariant ReceiveMessages(View(), msgSize, time) == ReceiveMessages(start, messageBuffer.Length, time)
        decreases |socket.inbox|
      {
        ghost var s := View();
        var ok, from, size := ReceiveNext(msgSize);
        if !ok {
          return false;
        }
        ghost var d := s.inbox[0];
        HandleDatagramWF(s.(inbox := s.inbox[1..]), d, time);
        hasEvent := HandleReceived(from, size, time, s.(inbox := s.inbox[1..]), d);
        if hasEvent {
          return true;
        }
        msgSize := size;
      }
    }

    // ---- src/udp_connect.cpp:208-233 ----

    method ProcessEventsAt(order: seq<uint32>, time: int) returns (hasEvent: bool)
      requires Valid() && Visits(order, clientsById.Keys)
      modifies this, messageBuffer, socket, clients
      ensures Valid() && clients == old(clients)
      ensures View() == ProcessEvents(old(View()), order, time).s
      ensures Returned(hasEvent, ProcessEvents(old(View()), order, time).event)
    {
      UpdatePendingClientsWF(View(), time);
      assert forall id <- order :: id in View().byId;
      hasEvent := UpdatePending(time);
      if hasEvent {
        return true;
      }
      assert forall id <- order :: id in View().byId;
      hasEvent := UpdateClientConnectionStatus(order, time);
      if hasEvent {
        return true;
      }
      hasEvent := ReceiveAll(time);
    }

    // ---- src/UdcServer.cpp:49-151, src/udp_connect.cpp:112-206 ----

    method CreateUniqueId() returns (id: uint32)
      requires Sized()
      modifies this`idCounter
      ensures id == NextId(old(idCounter)) && View() == old(View()).(idCounter := id)
    {
      idCounter := if idCounter == 0xFFFF_FFFF then 0 else idCounter + 1;
      return idCounter;
    }

    /** udcTryConnectIPv4/6. */
    method TryConnectTo(outgoing: Address, timeout: uint32, time: int)
      returns (endPointId: Option<uint32>, ghost client: UdcClient?)
      requires Valid()
      modifies this
      ensures Valid()
      ensures endPointId.None? ==> client == null && clients == old(clients)
      ensures endPointId.Some? ==> client != null && fresh(client) && clients == old(clients) + {client}
      ensures endPointId == if timeout == 0 then None else Some(NextId(old(idCounter)))
      ensures View() == if client == null then old(View())
                        else TryConnect(old(View()), client, outgoing, timeout, time).0
    {
      if timeout == 0 {
        return None, null;
      }
      ghost var s := View();
      var id := CreateUniqueId();
      var c := new UdcClient(id, outgoing, PassedPingPeriod(timeout), PassedTimeoutPeriod(timeout));
      AddPendingClient(c, time);
      AddPendingWF(s, c, outgoing, PassedPingPeriod(timeout), PassedTimeoutPeriod(timeout), time);
      return Some(id), c;
    }

    method AddPendingClient(client: UdcClient, time: int)
      requires Sized() && client !in clients && forall c <- clients :: allocated(c)
      modifies this`pendingClients, this`clients, client
      ensures clients == old(clients) + {client}
      ensures View() == old(View()).(heap := old(Heap())[client := StartConnecting(old(client.View()), time)],
                                     pending := old(pendingClients) + [client])
    {
      client.StartConnectingAt(time);
      pendingClients := pendingClients + [client];
      clients := clients + {client};
      assert forall d | d in old(clients) :: d.View() == old(d.View());
      assert Heap() == old(Heap())[client := client.View()];
    }

    method DisconnectFrom(endPointId: uint32)
      requires Valid()
      modifies this`pendingClients, this`clientsById, this`clientsByAddress
      ensures Valid() && View() == Disconnect(old(View()), endPointId)
    {
      ghost var s := View();
      DisconnectWF(s, endPointId);
      if endPointId in clientsById {
        var client := clientsById[endPointId];
        assert client in s.heap && s.heap[client] == client.View();
        clientsByAddress := clientsByAddress - {client.outgoingAddress};
        clientsById := clientsById - {endPointId};
        return;
      }
      ErasePending(endPointId);
    }

    /** The erasing iterator loop over the pending deque. */
    method ErasePending(endPointId: uint32)
      requires Valid()
      modifies this`pendingClients
      ensures View() == old(View()).(pending := WithoutId(old(View()).heap, old(View()).pending, endPointId))
    {
      ghost var s := View();
      var i := 0;
      while i < |pendingClients|
        invariant 0 <= i <= |pendingClients|
        invariant forall c <- pendingClients :: c in s.heap && s.heap[c].id == c.id
        invariant pendingClients[..i] + WithoutId(s.heap, pendingClients[i..], endPointId)
            == WithoutId(s.heap, s.pending, endPointId)
        decreases |pendingClients| - i
      {
        var client := pendingClients[i];
        Spec.EraseAt(pendingClients, i);
        WithoutIdStep(s.heap, pendingClients[..i], pendingClients[i..], endPointId);
        if client.id == endPointId {
          pendingClients := pendingClients[..i] + pendingClients[i + 1..];
        } else {
          i := i + 1;
        }
      }
      assert pendingClients[..i] == pendingClients && pendingClients[i..] == [];
    }

    method SendUnreliableMessage(endPointId: uint32, data: seq<byte>) returns (accepted: bool)
      requires Valid() && |data| < 0x1_0000_0000 && TestHolds(messageBuffer.Length, HEADER_SIZE, |data|)
      modifies messageBuffer, socket`outbox
      ensures Valid() && (View(), accepted) == SendUnreliable(old(View()), endPointId, data)
    {
      if (|data| + HEADER_SIZE) % 0x1_0000_0000 > messageBuffer.Length {
        return false;
      }
      if endPointId !in clientsById {
        return false;
      }
      var client := clientsById[endPointId];
      assert client in View().heap && View().heap[client] == client.View();
      if !client.isConnected {
        return true;
      }
      SendData(client.outgoingAddress, data);
      return true;
    }

    method SendData(to: Address, data: seq<byte>)
      requires Sized() && HEADER_SIZE + |data| <= messageBuffer.Length
      modifies messageBuffer, socket`outbox
      ensures View() == Send(old(View()), to, Unreliable(data))
    {
      WriteUnreliable(messageBuffer, Unreliable(data));
      socket.SendTo(to, messageBuffer, HEADER_SIZE + |data|);
    }

    method SendReliableMessage(endPointId: uint32, data: seq<byte>) returns (accepted: bool)
      requires Valid() && |data| < 0x1_0000_0000
      modifies clients
      ensures Sized() && (View(), accepted) == SendReliable(old(View()), endPointId, data)
      ensures TestHolds(messageBuffer.Length, RELIABLE_SIZE, |data|) ==> Valid()
    {
      ghost var s := View();
      SendWF(s, endPointId, data);
      if (|data| + RELIABLE_SIZE) % 0x1_0000_0000 > messageBuffer.Length {
        return false;
      }
      if endPointId !in clientsById {
        return false;
      }
      var client := clientsById[endPointId];
      assert client in s.heap && s.heap[client] == client.View();
      client.PushReliable(data);
      ClientChanged(client);
      return true;
    }

    /** udcGetStatus: true with the 32-bit ping of a connected endpoint. */
    method GetEndPointStatus(endPointId: uint32) returns (result: bool, ping: uint32)
      requires Valid()
      ensures match GetStatus(View(), endPointId)
              case None => !result
              case Some(p) => result && ping == p
      ensures result <==> endPointId in clientsById && clientsById[endPointId].isConnected
    {
      if endPointId in clientsById {
        var client := clientsById[endPointId];
        assert client in View().heap && View().heap[client] == client.View();
        if client.isConnected {
          return true, Low32(client.ping);
        }
      }
      return false, 0;
    }
  }

  /** udcCreateServer: no server, and an untouched buffer, below the minimum size. */
  method CreateServer(signature: Signature, buffer: array<byte>, socket: UdcSocketMux) returns (server: UdcServer?)
    requires buffer.Length < 0x1_0000_0000
    modifies buffer
    ensures server == null <==> buffer.Length < RELIABLE_SIZE
    ensures server == null ==> buffer[..] == old(buffer[..])
    ensures server != null ==>
              && fresh(server) && server.Valid() && server.clients == {}
              && server.messageBuffer == buffer && server.socket == socket
              && buffer[..] == Overwrite(old(buffer[..]), 0, signature)
  {
    if buffer.Length < RELIABLE_SIZE {
      return null;
    }
    server := new UdcServer(signature, buffer, socket);
  }
}
