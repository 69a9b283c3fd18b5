// The update loop "call udcProcessEvents() until nullptr is returned" ends.

module Polling {
  import opened Bytes
  import opened Message
  import opened Client
  import opened ServerSpec
  import opened UdcServerImpl

  // Each returned event lowers a count of what is left to report (include/udp_connect.h:187-190).

  /** Connected clients whose loss is due at `time`. */
  ghost function Overdue<R>(s: Server<R>, time: int): set<R>
    requires WF(s)
  {
    set r | r in s.byId.Values && NeedsConnectionLostEvent(s.heap[r], time)
  }

  ghost function Pressure<R>(s: Server<R>, time: int): nat
    requires WF(s)
  {
    |s.pending| + |Overdue(s, time)| + 2 * |s.inbox|
  }

  /** The same clients are overdue. */
  lemma SamePressure<R>(s: Server<R>, t: Server<R>, time: int)
    requires WF(s) && WF(t) && s.pending == t.pending && s.byId == t.byId && s.inbox == t.inbox
    requires forall r <- s.heap :: r in t.heap && t.heap[r].connected == s.heap[r].connected
                               && t.heap[r].lastReceivedTime == s.heap[r].lastReceivedTime
                               && t.heap[r].connectionLostPeriod == s.heap[r].connectionLostPeriod
    ensures Pressure(t, time) == Pressure(s, time)
  {
    assert Overdue(t, time) == Overdue(s, time);
  }

  lemma UpdatePendingFalls<R>(s: Server<R>, time: int)
    requires WF(s)
    ensures WF(UpdatePendingClients(s, time).s)
    ensures var o := UpdatePendingClients(s, time);
            Pressure(o.s, time) == Pressure(s, time) - if o.event.Some? then 1 else 0
  {
    UpdatePendingClientsWF(s, time);
    if s.pending != [] {
      var t := s.(pending := s.pending[1..]);
      assert Overdue(t, time) == Overdue(s, time);
      RetrySame(s, s.pending[0], time);
    }
  }

  lemma RetrySame<R>(s: Server<R>, r: R, time: int)
    requires WF(s) && r in s.heap
    ensures var t := Send(SetClient(s, r, RetryConnecting(s.heap[r], time)), s.heap[r].outgoing,
        ConnectionRequest(s.heap[r].id));
            WF(t) && Pressure(t, time) == Pressure(s, time)
  {
    SetClientWF(s, r, RetryConnecting(s.heap[r], time));
    var t := Send(SetClient(s, r, RetryConnecting(s.heap[r], time)), s.heap[r].outgoing,
        ConnectionRequest(s.heap[r].id));
    SamePressure(s, t, time);
  }

  lemma UpdateClientFalls<R>(s: Server<R>, id: uint32, time: int)
    requires WF(s) && id in s.byId
    ensures WF(UpdateClient(s, id, time).s)
    ensures var o := UpdateClient(s, id, time);
            Pressure(o.s, time) == Pressure(s, time) - if o.event.Some? then 1 else 0
  {
    var r := s.byId[id];
    var o := UpdateClient(s, id, time);
    UpdateClientWF(s, id, time);
    UpdateClientIsPoll(s, id, time);
    PollKeeps(s.heap[r], time);
    if o.event.Some? {
      assert r in s.byId.Values && r in Overdue(s, time);
      assert Overdue(o.s, time) == Overdue(s, time) - {r};
    } else {
      SamePressure(s, o.s, time);
    }
  }

  lemma {:induction false} UpdateClientsFall<R>(s: Server<R>, order: seq<uint32>, time: int)
    requires WF(s) && forall id <- order :: id in s.byId
    ensures WF(UpdateClients(s, order, time).s)
    ensures var o := UpdateClients(s, order, time);
            Pressure(o.s, time) == Pressure(s, time) - if o.event.Some? then 1 else 0
    decreases |order|
  {
    UpdateClientsWF(s, order, time);
    if order != [] {
      UpdateClientFalls(s, order[0], time);
      UpdateClientWF(s, order[0], time);
      var o := UpdateClient(s, order[0], time);
      if o.event.None? {
        UpdateClientsFall(o.s, order[1..], time);
      }
    }
  }

  /** A change of one client makes at most that one overdue. */
  lemma OneMoreOverdue<R>(s: Server<R>, t: Server<R>, r: R, time: int)
    requires WF(s) && WF(t) && t.byId.Values <= s.byId.Values + {r}
    requires forall q <- s.heap :: q in t.heap && (q == r || t.heap[q] == s.heap[q])
    ensures |Overdue(t, time)| <= |Overdue(s, time)| + 1
  {
    assert Overdue(t, time) <= Overdue(s, time) + {r};
    Subset(Overdue(t, time), Overdue(s, time) + {r});
  }

  lemma {:induction false} Subset<T>(a: set<T>, b: set<T>)
    requires a <= b
    ensures |a| <= |b|
  {
    assert b == a + (b - a);
  }

  lemma AcceptConnectionFalls<R>(s: Server<R>, from: Address, id: uint32, time: int)
    requires WF(s)
    ensures WF(AcceptConnection(s, from, id, time).s)
    ensures var t := AcceptConnection(s, from, id, time).s;
            |t.pending| + |Overdue(t, time)| <= |s.pending| + |Overdue(s, time)|
  {
    AcceptConnectionWF(s, from, id, time);
    var o := AcceptConnection(s, from, id, time);
    if o.event.Some? {
      var r := s.pending[0];
      assert o.s.byId.Values <= s.byId.Values + {r};
      OneMoreOverdue(s, o.s, r, time);
    }
  }

  /** A change of one indexed client raises the pressure by at most one. */
  lemma SetClientRises<R>(s: Server<R>, r: R, c: ClientState, time: int)
    requires WF(s) && WF(SetClient(s, r, c)) && r in s.heap
    ensures Pressure(SetClient(s, r, c), time) <= Pressure(s, time) + 1
  {
    OneMoreOverdue(s, SetClient(s, r, c), r, time);
  }

  lemma AcceptReliableHandshakeRises<R>(s: Server<R>, from: Address, state: ReliableState, stamp: uint32, time: int)
    requires WF(s)
    ensures WF(AcceptReliableHandshake(s, from, state, stamp, time).s)
    ensures Pressure(AcceptReliableHandshake(s, from, state, stamp, time).s, time) <= Pressure(s, time) + 1
  {
    AcceptReliableHandshakeWF(s, from, state, stamp, time);
    if from in s.byAddress && stamp <= time {
      SetClientRises(s, s.byAddress[from], ReceiveReliableHandshake(s.heap[s.byAddress[from]], state, stamp, time),
          time);
    }
  }

  lemma AcceptPongRises<R>(s: Server<R>, from: Address, stamp: uint32, time: int)
    requires WF(s)
    ensures WF(AcceptPong(s, from, stamp, time).s)
    ensures Pressure(AcceptPong(s, from, stamp, time).s, time) <= Pressure(s, time) + 1
  {
    AcceptPongWF(s, from, stamp, time);
    if from in s.byAddress && stamp <= time {
      SetClientRises(s, s.byAddress[from], ReceivePong(s.heap[s.byAddress[from]], stamp, time), time);
    }
  }

  lemma HandlePacketRises<R>(s: Server<R>, from: Address, p: Packet, time: int)
    requires WF(s)
    ensures WF(HandlePacket(s, from, p, time).s)
    ensures Pressure(HandlePacket(s, from, p, time).s, time) <= Pressure(s, time) + 1
  {
    HandlePacketWF(s, from, p, time);
    match p
    case ConnectionHandshake(id) => AcceptConnectionFalls(s, from, id, time);
    case Pong(stamp) => AcceptPongRises(s, from, stamp, time);
    case HandshakeReset(stamp) => AcceptReliableHandshakeRises(s, from, -1, stamp, time);
    case Handshake(bit, stamp) => AcceptReliableHandshakeRises(s, from, bit, stamp, time);
    case _ => SamePressure(s, HandlePacket(s, from, p, time).s, time);
  }

  lemma HandleDatagramRises<R>(s: Server<R>, d: Datagram, time: int)
    requires WF(s)
    ensures WF(HandleDatagram(s, d, time).s)
    ensures Pressure(HandleDatagram(s, d, time).s, time) <= Pressure(s, time) + 1
  {
    HandleDatagramWF(s, d, time);
    var s1 := s.(prefix := Land(s.prefix, d.bytes));
    SamePressure(s, s1, time);
    if |d.bytes| < HEADER_SIZE {
    } else if s1.prefix != s.signature {
      SamePressure(s, s1.(prefix := s.signature), time);
    } else {
      var p := Parse(s.signature, d.bytes);
      if p.Some? {
        HandlePacketRises(s1, d.address, p.value, time);
      }
    }
  }

  /** Each datagram taken in pays two and gives back at most one. */
  lemma {:induction false} ReceiveFalls<R>(s: Server<R>, offered: nat, time: int)
    requires WF(s)
    ensures WF(ReceiveMessages(s, offered, time).s)
    ensures var o := ReceiveMessages(s, offered, time);
            Pressure(o.s, time) <= Pressure(s, time) - if o.event.Some? then 1 else 0
    decreases |s.inbox|
  {
    ReceiveMessagesWF(s, offered, time);
    match Receive(s.inbox, offered)
    case Nothing =>
    case Failed(landed) => assert Overdue(ReceiveMessages(s, offered, time).s, time) == Overdue(s, time);
    case Received(d) =>
      var s1 := s.(inbox := s.inbox[1..]);
      assert Overdue(s1, time) == Overdue(s, time);
      HandleDatagramWF(s1, d, time);
      HandleDatagramRises(s1, d, time);
      var o := HandleDatagram(s1, d, time);
      if o.event.None? {
        ReceiveFalls(o.s, |d.bytes|, time);
      }
  }

  /** At a fixed time, with nothing new arriving, every event returned lowers the pressure, whatever the order the
      clients are visited in and whatever the periods. */
  lemma EventLowersPressure<R>(s: Server<R>, order: seq<uint32>, time: int)
    requires WF(s) && forall id <- order :: id in s.byId
    ensures WF(ProcessEvents(s, order, time).s)
    ensures var o := ProcessEvents(s, order, time);
            Pressure(o.s, time) <= Pressure(s, time) - if o.event.Some? then 1 else 0
  {
    UpdatePendingFalls(s, time);
    UpdatePendingClientsWF(s, time);
    var o1 := UpdatePendingClients(s, time);
    if o1.event.None? {
      UpdateClientsFall(o1.s, order, time);
      UpdateClientsWF(o1.s, order, time);
      var o2 := UpdateClients(o1.s, order, time);
      if o2.event.None? {
        ReceiveFalls(o2.s, o2.s.bufferSize, time);
      }
    }
  }

  // ---- the loop ----

  /** The keys of the id map in some order. */
  method IterationOrder(ids: set<uint32>) returns (order: seq<uint32>)
    ensures Visits(order, ids)
  {
    order := [];
    var left := ids;
    while left != {}
      invariant left <= ids && Visits(order, ids - left)
      decreases left
    {
      var id :| id in left;
      order := order + [id];
      left := left - {id};
    }
  }

  /** One call of udcProcessEvents, in whatever order the map yields its keys. */
  method PollOnce(server: UdcServer, time: int) returns (hasEvent: bool, ghost order: seq<uint32>)
    requires server.Valid()
    modifies server, server.messageBuffer, server.socket, server.clients
    ensures server.Valid() && server.clients == old(server.clients)
    ensures Visits(order, old(server.View()).byId.Keys)
    ensures server.View() == ProcessEvents(old(server.View()), order, time).s
    ensures server.Returned(hasEvent, ProcessEvents(old(server.View()), order, time).event)
  {
    ghost var s := server.View();
    var keys := IterationOrder(server.clientsById.Keys);
    order := keys;
    assert server.View() == s && s.byId == server.clientsById;
    hasEvent := server.ProcessEventsAt(keys, time);
  }

  /** A poll that returns an event leads from `s` to `t`. */
  ghost predicate Reported<R>(s: Server<R>, order: seq<uint32>, t: Server<R>, time: int) {
    && WF(s) && Visits(order, s.byId.Keys)
    && ProcessEvents(s, order, time).event.Some? && ProcessEvents(s, order, time).s == t
  }

  /** Polling once for each of `orders` leads through `states`, and each of these polls returns an event. */
  ghost predicate ReportsThrough<R>(states: seq<Server<R>>, orders: seq<seq<uint32>>, time: int) {
    |states| == |orders| + 1 && forall i | 0 <= i < |orders| :: Reported(states[i], orders[i], states[i + 1], time)
  }

  /** At most as many polls in a row report an event as there is pressure to lower. */
  lemma {:induction false} ReportsBounded<R>(states: seq<Server<R>>, orders: seq<seq<uint32>>, time: int)
    requires ReportsThrough(states, orders, time) && WF(states[0])
    ensures WF(states[|orders|]) && |orders| + Pressure(states[|orders|], time) <= Pressure(states[0], time)
    decreases |orders|
  {
    if orders != [] {
      var k := |orders| - 1;
      ReportsBounded(states[..k + 1], orders[..k], time);
      assert Reported(states[k], orders[k], states[k + 1], time);
      EventLowersPressure(states[k], orders[k], time);
    }
  }

  /** The documented update loop: polls one server at one time until a poll returns nothing. Every poll before the last
      returned an event, the last one did not, and there were no more of them than the pressure allows. */
  method PollUntilQuiet(server: UdcServer, time: int)
    returns (events: nat, ghost states: seq<Server<UdcClient>>, ghost orders: seq<seq<uint32>>,
          ghost order: seq<uint32>)
    requires server.Valid()
    modifies server, server.messageBuffer, server.socket, server.clients
    ensures server.Valid() && server.clients == old(server.clients)
    ensures events == |orders| <= Pressure(old(server.View()), time)
    ensures ReportsThrough(states, orders, time) && states[0] == old(server.View())
    ensures WF(states[events]) && Visits(order, states[events].byId.Keys)
        && ProcessEvents(states[events], order, time) == Outcome(server.View(), None)
  {
    events, states, orders := 0, [server.View()], [];
    while true
      invariant server.Valid() && server.clients == old(server.clients)
      invariant events == |orders| && ReportsThrough(states, orders, time)
      invariant states[0] == old(server.View()) && states[events] == server.View()
      decreases Pressure(server.View(), time)
    {
      ghost var last := server.View();
      var hasEvent;
      hasEvent, order := PollOnce(server, time);
      EventLowersPressure(last, order, time);
      if !hasEvent {
        ReportsBounded(states, orders, time);
        return;
      }
      assert Reported(last, order, server.View(), time);
      events, states, orders := events + 1, states + [server.View()], orders + [order];
    }
  }
}
