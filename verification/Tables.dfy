// Which operations leave the two indexes alone, and what a poll may do to them: move the one waiting client whose
// connection it completes into both, and nothing else. Each stage of a poll is shown to do one or the other; whatever
// depends on the indexes only, such as which client a packet reaches, follows for whole polls.

module IndexTables {
  import opened Bytes
  import opened Message
  import opened Client
  import opened ServerSpec
  import opened Reception

  /** Neither index changed, nothing joined the queue, and clients kept their identity. */
  ghost predicate SameIndexes<R>(s: Server<R>, t: Server<R>) {
    && WF(t) && t.byId == s.byId && t.byAddress == s.byAddress && (forall q <- t.pending :: q in s.pending)
    && t.idCounter == s.idCounter && t.heap.Keys == s.heap.Keys
    && forall q <- s.heap :: SameIdentity(s.heap[q], t.heap[q])
  }

  lemma SameIndexesTwice<R>(s: Server<R>, t: Server<R>, u: Server<R>)
    requires SameIndexes(s, t) && SameIndexes(t, u)
    ensures SameIndexes(s, u)
  {
  }

  lemma SetClientIndexes<R>(s: Server<R>, r: R, c: ClientState)
    requires WF(SetClient(s, r, c)) && r in s.heap && SameIdentity(s.heap[r], c)
    ensures SameIndexes(s, SetClient(s, r, c))
  {
  }

  lemma UpdatePendingIndexes<R>(s: Server<R>, time: int)
    requires WF(s)
    ensures SameIndexes(s, UpdatePendingClients(s, time).s)
  {
    if s.pending != [] {
      FrontIndexes(s);
      RetryIndexes(s, s.pending[0], time);
    }
  }

  lemma RetryIndexes<R>(s: Server<R>, r: R, time: int)
    requires WF(s) && r in s.heap
    ensures var c := s.heap[r];
            SameIndexes(s, Send(SetClient(s, r, RetryConnecting(c, time)), c.outgoing, ConnectionRequest(c.id)))
  {
    SetClientWF(s, r, RetryConnecting(s.heap[r], time));
    SetClientIndexes(s, r, RetryConnecting(s.heap[r], time));
  }

  lemma FrontIndexes<R>(s: Server<R>)
    requires WF(s) && s.pending != []
    ensures SameIndexes(s, s.(pending := s.pending[1..]))
  {
  }

  lemma UpdateClientIndexes<R>(s: Server<R>, id: uint32, time: int)
    requires WF(s) && id in s.byId
    ensures SameIndexes(s, UpdateClient(s, id, time).s)
  {
    UpdateClientWF(s, id, time);
    UpdateClientIsPoll(s, id, time);
    PollKeeps(s.heap[s.byId[id]], time);
  }

  lemma {:induction false} UpdateClientsIndexes<R>(s: Server<R>, order: seq<uint32>, time: int)
    requires WF(s) && forall id <- order :: id in s.byId
    ensures SameIndexes(s, UpdateClients(s, order, time).s)
    decreases |order|
  {
    if order != [] {
      UpdateClientIndexes(s, order[0], time);
      var o := UpdateClient(s, order[0], time);
      if o.event.None? {
        UpdateClientsIndexes(o.s, order[1..], time);
        SameIndexesTwice(s, o.s, UpdateClients(o.s, order[1..], time).s);
      }
    }
  }

  predicate IsSuccess(event: Option<Event>) {
    event.Some? && event.value.ConnectionSuccess?
  }

  /** Only the completion of a connection changes an index while receiving. */
  lemma PacketIndexes<R>(s: Server<R>, from: Address, p: Packet, time: int)
    requires WF(s)
    ensures p.ConnectionHandshake? || !IsSuccess(HandlePacket(s, from, p, time).event)
    ensures IsSuccess(HandlePacket(s, from, p, time).event) || SameIndexes(s, HandlePacket(s, from, p, time).s)
  {
    match p
    case ConnectionHandshake(id) => AcceptIndexes(s, from, id, time);
    case Pong(stamp) => PongIndexes(s, from, stamp, time);
    case HandshakeReset(stamp) => HandshakeIndexes(s, from, -1, stamp, time);
    case Handshake(bit, stamp) => HandshakeIndexes(s, from, bit, stamp, time);
    case _ => AnswerIndexes(s, from, p, time);
  }

  lemma AcceptIndexes<R>(s: Server<R>, from: Address, id: uint32, time: int)
    requires WF(s)
    ensures IsSuccess(AcceptConnection(s, from, id, time).event) || AcceptConnection(s, from, id, time).s == s
  {
  }

  lemma AnswerIndexes<R>(s: Server<R>, from: Address, p: Packet, time: int)
    requires WF(s) && (p.ConnectionRequest? || p.Ping? || p.Unreliable? || p.ReliableReset? || p.Reliable?)
    ensures !IsSuccess(HandlePacket(s, from, p, time).event) && SameIndexes(s, HandlePacket(s, from, p, time).s)
  {
  }

  lemma PongIndexes<R>(s: Server<R>, from: Address, stamp: uint32, time: int)
    requires WF(s)
    ensures SameIndexes(s, AcceptPong(s, from, stamp, time).s)
  {
    AcceptPongWF(s, from, stamp, time);
    if from in s.byAddress && stamp <= time {
      SetClientIndexes(s, s.byAddress[from], ReceivePong(s.heap[s.byAddress[from]], stamp, time));
    }
  }

  lemma HandshakeIndexes<R>(s: Server<R>, from: Address, state: ReliableState, stamp: uint32, time: int)
    requires WF(s)
    ensures SameIndexes(s, AcceptReliableHandshake(s, from, state, stamp, time).s)
  {
    AcceptReliableHandshakeWF(s, from, state, stamp, time);
    if from in s.byAddress && stamp <= time {
      SetClientIndexes(s, s.byAddress[from], ReceiveReliableHandshake(s.heap[s.byAddress[from]], state, stamp, time));
    }
  }

  lemma DatagramIndexes<R>(s: Server<R>, d: Datagram, time: int)
    requires WF(s)
    ensures IsSuccess(HandleDatagram(s, d, time).event) || SameIndexes(s, HandleDatagram(s, d, time).s)
  {
    HandleDatagramIs(s, d, time);
    match Parse(s.signature, d.bytes)
    case Some(p) => PacketIndexes(s.(prefix := s.signature), d.address, p, time);
    case None =>
  }

  // ---- whole polls ----

  /** The client `r`, waiting in `s`, is in both indexes of `t`. */
  ghost predicate Joins<R>(s: Server<R>, t: Server<R>, r: R, from: Address) {
    && r in s.pending && r in s.heap && from !in s.byAddress
    && t.byId == s.byId[s.heap[r].id := r] && t.byAddress == s.byAddress[from := r]
  }

  ghost predicate Completes<R>(s: Server<R>, t: Server<R>, id: uint32) {
    id in t.byId && t.byId[id] in s.heap && s.heap[t.byId[id]].id == id && exists from :: Joins(s, t, t.byId[id], from)
  }

  /** What a poll may do to the tables: complete the connection it reports, if it reports one, and nothing else. */
  ghost predicate Settles<R>(s: Server<R>, t: Server<R>, event: Option<Event>) {
    && WF(t) && t.idCounter == s.idCounter && (forall q <- t.pending :: q in s.pending)
    && t.heap.Keys == s.heap.Keys && (forall q <- s.heap :: SameIdentity(s.heap[q], t.heap[q]))
    && if IsSuccess(event) then Completes(s, t, event.value.id) else t.byId == s.byId && t.byAddress == s.byAddress
  }

  lemma SettlesLater<R>(s: Server<R>, t: Server<R>, u: Server<R>, event: Option<Event>)
    requires SameIndexes(s, t) && Settles(t, u, event)
    ensures Settles(s, u, event)
  {
    if IsSuccess(event) {
      var r := u.byId[event.value.id];
      var from :| Joins(t, u, r, from);
      assert Joins(s, u, r, from);
    }
  }

  lemma AcceptSettles<R>(s: Server<R>, from: Address, id: uint32, time: int)
    requires WF(s)
    ensures var o := AcceptConnection(s, from, id, time);
            Settles(s, o.s, o.event) && (IsSuccess(o.event) ==> Joins(s, o.s, s.pending[0], from))
  {
    AcceptConnectionWF(s, from, id, time);
    var o := AcceptConnection(s, from, id, time);
    if o.event.Some? {
      assert Joins(s, o.s, s.pending[0], from);
    }
  }

  lemma PacketSettles<R>(s: Server<R>, from: Address, p: Packet, time: int)
    requires WF(s)
    ensures var o := HandlePacket(s, from, p, time); Settles(s, o.s, o.event)
  {
    PacketIndexes(s, from, p, time);
    if p.ConnectionHandshake? {
      AcceptSettles(s, from, p.endPointId, time);
    }
  }

  /** One turn of the receive loop. */
  lemma TurnSettles<R>(s: Server<R>, time: int)
    requires WF(s) && s.inbox != []
    ensures Settles(s, Turn(s, time).s, Turn(s, time).event)
  {
    var d := s.inbox[0];
    var s1 := s.(inbox := s.inbox[1..]);
    HandleDatagramIs(s1, d, time);
    match Parse(s.signature, d.bytes)
    case Some(p) =>
      var o := HandlePacket(s1.(prefix := s.signature), d.address, p, time);
      PacketSettles(s1.(prefix := s.signature), d.address, p, time);
      SettlesLater(s, s1.(prefix := s.signature), o.s, o.event);
    case None =>
  }

  lemma {:induction false} ReceiveSettles<R>(s: Server<R>, offered: nat, time: int)
    requires WF(s)
    ensures var o := ReceiveMessages(s, offered, time); Settles(s, o.s, o.event)
    decreases |s.inbox|
  {
    if Receive(s.inbox, offered).Received? {
      ReceiveStep(s, offered, time);
      TurnSettles(s, time);
      var o := Turn(s, time);
      if o.event.None? {
        var p := ReceiveMessages(o.s, |s.inbox[0].bytes|, time);
        ReceiveSettles(o.s, |s.inbox[0].bytes|, time);
        SettlesLater(s, o.s, p.s, p.event);
      }
    } else {
      StopSettles(s, offered, time);
    }
  }

  lemma StopSettles<R>(s: Server<R>, offered: nat, time: int)
    requires WF(s) && !Receive(s.inbox, offered).Received?
    ensures var o := ReceiveMessages(s, offered, time); Settles(s, o.s, o.event)
  {
    assert SameIndexes(s, ReceiveMessages(s, offered, time).s);
  }

  lemma {:induction false} LoopReportsNoSuccess<R>(s: Server<R>, order: seq<uint32>, time: int)
    requires WF(s) && forall id <- order :: id in s.byId
    ensures !IsSuccess(UpdateClients(s, order, time).event)
    decreases |order|
  {
    if order != [] {
      UpdateClientWF(s, order[0], time);
      UpdateClientIsPoll(s, order[0], time);
      var o := UpdateClient(s, order[0], time);
      if o.event.None? {
        LoopReportsNoSuccess(o.s, order[1..], time);
      }
    }
  }

  /** A poll changes the indexes only by completing the connection it reports. */
  lemma PollSettles<R>(s: Server<R>, order: seq<uint32>, time: int)
    requires WF(s) && forall id <- order :: id in s.byId
    ensures var o := ProcessEvents(s, order, time); Settles(s, o.s, o.event)
  {
    UpdatePendingIndexes(s, time);
    var o1 := UpdatePendingClients(s, time);
    if o1.event.None? {
      UpdateClientsIndexes(o1.s, order, time);
      LoopReportsNoSuccess(o1.s, order, time);
      var o2 := UpdateClients(o1.s, order, time);
      SameIndexesTwice(s, o1.s, o2.s);
      if o2.event.None? {
        var o := ReceiveMessages(o2.s, o2.s.bufferSize, time);
        ReceiveSettles(o2.s, o2.s.bufferSize, time);
        SettlesLater(s, o2.s, o.s, o.event);
      }
    }
  }
}
