// What a connection completed from the wrong address leaves behind (src/UdcServer.cpp:79-92, 441-451): the client stays
// in the address index after its disconnect, and blocks the address until another such connection takes the entry with
// it.

module Ghosts {
  import opened Bytes
  import opened Message
  import opened Client
  import opened ServerSpec
  import opened IndexTables
  import opened Ledger
  import opened Runs
  import opened Connected

  /** A handshake accepted from another address than the client sends to: disconnecting that client takes its id out
      and leaves the client itself in the address index, where it blocks the address. */
  lemma MismatchLeavesGhost<R>(s: Server<R>, from: Address, id: uint32, time: int)
    requires WF(s) && AcceptConnection(s, from, id, time).event.Some?
    requires from != s.heap[s.pending[0]].outgoing
    ensures WF(AcceptConnection(s, from, id, time).s)
    ensures var t := Disconnect(AcceptConnection(s, from, id, time).s, id);
            && id !in t.byId && from in t.byAddress && t.byAddress[from] == s.pending[0]
            && forall id': uint32, later: int | WF(t) :: AcceptConnection(t, from, id', later).event == None
  {
    AcceptConnectionWF(s, from, id, time);
  }

  /** A client lost before it was so disconnected still reports REGAINED when a pong comes from that address. */
  lemma GhostSpeaks<R>(s: Server<R>, from: Address, id: uint32, stamp: uint32, time: int)
    requires WF(s) && id in s.byId && from in s.byAddress && s.byAddress[from] == s.byId[id]
    requires s.heap[s.byId[id]].id == id && s.heap[s.byId[id]].outgoing != from && !s.heap[s.byId[id]].connected
    requires stamp <= time
    ensures WF(Disconnect(s, id)) && id !in Disconnect(s, id).byId
    ensures AcceptPong(Disconnect(s, id), from, stamp, time).event == Some(ConnectionRegained(id))
  {
    DisconnectWF(s, id);
  }

  // ---- how long it stays ----

  /** The address is taken, and no connected client whose disconnect would free it sends to it. */
  ghost predicate Blocked<R>(s: Server<R>, from: Address) {
    WF(s) && from in s.byAddress && forall id <- s.byId :: s.heap[s.byId[id]].outgoing != from
  }

  ghost predicate Holds<R>(s: Server<R>, t: Server<R>, from: Address) {
    Blocked(s, from) && Blocked(t, from) && t.byAddress[from] == s.byAddress[from]
  }

  lemma SameIndexesHold<R>(s: Server<R>, t: Server<R>, from: Address)
    requires Blocked(s, from) && SameIndexes(s, t)
    ensures Holds(s, t, from)
  {
  }

  lemma AcceptHolds<R>(s: Server<R>, d: Address, id: uint32, time: int, from: Address)
    requires Blocked(s, from) && s.pending != []
    requires AcceptConnection(s, d, id, time).event.Some? ==> d == s.heap[s.pending[0]].outgoing
    ensures Holds(s, AcceptConnection(s, d, id, time).s, from)
  {
    AcceptConnectionWF(s, d, id, time);
  }

  lemma TurnHolds<R>(s: Server<R>, d: Datagram, time: int, from: Address)
    requires Blocked(s, from) && HonestTurn(s, d, time)
    ensures Holds(s, HandleDatagram(s, d, time).s, from)
  {
    DatagramIndexes(s, d, time);
    if IsSuccess(HandleDatagram(s, d, time).event) {
      HandleDatagramIs(s, d, time);
      var p := Parse(s.signature, d.bytes).value;
      PacketIndexes(s.(prefix := s.signature), d.address, p, time);
      AcceptHolds(s.(prefix := s.signature), d.address, p.endPointId, time, from);
    } else {
      SameIndexesHold(s, HandleDatagram(s, d, time).s, from);
    }
  }

  lemma {:induction false} ReceiveHolds<R>(s: Server<R>, offered: nat, time: int, from: Address)
    requires Blocked(s, from) && HonestReceive(s, offered, time)
    ensures Holds(s, ReceiveMessages(s, offered, time).s, from)
    decreases |s.inbox|
  {
    if Receive(s.inbox, offered).Received? {
      var s1 := s.(inbox := s.inbox[1..]);
      HandleDatagramWF(s1, s.inbox[0], time);
      TurnHolds(s1, s.inbox[0], time, from);
      var o := HandleDatagram(s1, s.inbox[0], time);
      if o.event.None? {
        ReceiveHolds(o.s, |s.inbox[0].bytes|, time, from);
      }
    }
  }

  lemma PollHolds<R>(s: Server<R>, order: seq<uint32>, time: int, from: Address)
    requires Blocked(s, from) && (forall id <- order :: id in s.byId) && HonestPoll(s, order, time)
    ensures Holds(s, ProcessEvents(s, order, time).s, from)
  {
    UpdatePendingIndexes(s, time);
    var o1 := UpdatePendingClients(s, time);
    SameIndexesHold(s, o1.s, from);
    if o1.event.None? {
      UpdateClientsIndexes(o1.s, order, time);
      var o2 := UpdateClients(o1.s, order, time);
      SameIndexesHold(o1.s, o2.s, from);
      if o2.event.None? {
        ReceiveHolds(o2.s, o2.s.bufferSize, time, from);
      }
    }
  }

  lemma CallHolds<R>(s: Server<R>, call: Call<R>, from: Address)
    requires Blocked(s, from) && Legal(s, call) && HonestCall(s, call)
    ensures Holds(s, After(s, call).s, from)
  {
    CallWF(s, call);
    match call
    case Process(order, time) => PollHolds(s, order, time, from);
    case Connect(_, _, _, _, _) =>
    case Drop(id) => DropHolds(s, id, from);
    case _ =>
      CallSame(s, call);
      SameIndexesHold(s, After(s, call).s, from);
  }

  lemma DropHolds<R>(s: Server<R>, id: uint32, from: Address)
    requires Blocked(s, from)
    ensures Holds(s, Disconnect(s, id), from)
  {
    DisconnectWF(s, id);
  }

  lemma {:induction false} RunHolds<R>(s: Server<R>, h: History, calls: seq<Call<R>>, from: Address)
    requires Blocked(s, from) && Lawful(s, calls) && HonestRun(s, calls)
    ensures Holds(s, Final(s, h, calls).0, from)
    decreases |calls|
  {
    if calls != [] {
      CallHolds(s, calls[0], from);
      RunHolds(After(s, calls[0]).s, HistoryAfter(s, h, calls[0]), calls[1..], from);
    }
  }

  /** In a server whose books were right, the ghost stays, and blocks its address, through every further run that
      completes connections from the right addresses only. */
  lemma GhostStays<R>(s: Server<R>, h: History, from: Address, id: uint32, time: int, calls: seq<Call<R>>,
          id': uint32, later: int)
    requires Book(s, h) && AcceptConnection(s, from, id, time).event.Some?
    requires from != s.heap[s.pending[0]].outgoing
    requires WF(AcceptConnection(s, from, id, time).s) && WF(Disconnect(AcceptConnection(s, from, id, time).s, id))
    requires var t := Disconnect(AcceptConnection(s, from, id, time).s, id); Lawful(t, calls) && HonestRun(t, calls)
    ensures var t := Disconnect(AcceptConnection(s, from, id, time).s, id);
            var u := Final(t, h, calls).0;
            && from in u.byAddress && u.byAddress[from] == s.pending[0]
            && AcceptConnection(u, from, id', later).event == None
  {
    var t := Disconnect(AcceptConnection(s, from, id, time).s, id);
    GhostBlocks(s, from, id, time);
    RunHolds(t, h, calls, from);
  }

  lemma GhostBlocks<R>(s: Server<R>, from: Address, id: uint32, time: int)
    requires WF(s) && Agreement(s) && AcceptConnection(s, from, id, time).event.Some?
    requires from != s.heap[s.pending[0]].outgoing && WF(AcceptConnection(s, from, id, time).s)
    ensures var t := Disconnect(AcceptConnection(s, from, id, time).s, id);
            Blocked(t, from) && t.byAddress[from] == s.pending[0]
  {
    var a := AcceptConnection(s, from, id, time).s;
    DisconnectWF(a, id);
    assert forall i <- s.byId :: s.heap[s.byId[i]].outgoing in s.byAddress;
  }

  /** Not for good: another client that sends to the blocked address, completed from a third one and disconnected,
      takes the ghost's entry with it. */
  lemma GhostCanLeave<R>(s: Server<R>, from: Address, other: Address, id: uint32, time: int)
    requires Blocked(s, from) && AcceptConnection(s, other, id, time).event.Some?
    requires s.heap[s.pending[0]].outgoing == from
    ensures WF(AcceptConnection(s, other, id, time).s)
    ensures other != from && from !in Disconnect(AcceptConnection(s, other, id, time).s, id).byAddress
  {
    AcceptConnectionWF(s, other, id, time);
  }
}
