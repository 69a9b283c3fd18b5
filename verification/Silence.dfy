// What the caller still hears of an endpoint that timed out or was disconnected
// (src/UdcServer.cpp:74-109, 427-498, 560-607).

module Silence {
  import opened Bytes
  import opened Message
  import opened Client
  import opened ServerSpec
  import opened Reception
  import opened IndexTables
  import opened Ledger
  import opened Runs
  import opened Connected
  import Polling

  predicate About(event: Option<Event>, id: uint32) {
    event.Some? && !event.value.ReceiveMessage? && event.value.id == id
  }

  /** Connected clients are under their own ids. */
  ghost predicate Named<R>(s: Server<R>) {
    WF(s) && forall id <- s.byId :: s.heap[s.byId[id]].id == id
  }

  /** The id was given out, and is neither connected nor waiting. */
  ghost predicate Departed<R>(s: Server<R>, id: uint32) {
    Named(s) && id <= s.idCounter && id !in s.byId && forall r <- s.pending :: s.heap[r].id != id
  }

  /** A client of this id is still in the address index, and lost. */
  ghost predicate Haunts<R>(s: Server<R>, id: uint32, a: Address) {
    WF(s) && a in s.byAddress && s.heap[s.byAddress[a]].id == id && !s.heap[s.byAddress[a]].connected
  }

  /** Every client of this id left in the address index is connected. */
  ghost predicate Mute<R>(s: Server<R>, id: uint32)
    requires WF(s)
  {
    forall a <- s.byAddress :: s.heap[s.byAddress[a]].id == id ==> s.heap[s.byAddress[a]].connected
  }

  /** Some call of the run reports something about the endpoint. */
  ghost predicate Mentions<R>(s: Server<R>, id: uint32, calls: seq<Call<R>>)
    requires WF(s) && Lawful(s, calls)
    decreases |calls|
  {
    calls != []
    && (About(After(s, calls[0]).event, id)
        || (CallWF(s, calls[0]); Mentions(After(s, calls[0]).s, id, calls[1..])))
  }

  // ---- one poll ----

  /** What a step does to the clients of a departed id: it leaves them, or a lost one speaks. */
  ghost predicate Leaves<R>(s: Server<R>, o: Outcome<R>, id: uint32) {
    && Departed(o.s, id) && Settles(s, o.s, o.event)
    && if About(o.event, id) then exists a :: Haunts(s, id, a)
       else forall q <- s.heap | s.heap[q].id == id :: o.s.heap[q].connected == s.heap[q].connected
  }

  lemma SameLeaves<R>(s: Server<R>, t: Server<R>, id: uint32)
    requires Departed(s, id) && SameIndexes(s, t)
    requires forall q <- s.heap | s.heap[q].id == id :: t.heap[q].connected == s.heap[q].connected
    ensures Leaves(s, Outcome(t, None), id)
  {
  }

  lemma LeavesTwice<R>(s: Server<R>, t: Server<R>, o: Outcome<R>, id: uint32)
    requires Departed(s, id) && Leaves(s, Outcome(t, None), id) && SameIndexes(s, t) && Leaves(t, o, id)
    ensures Leaves(s, o, id)
  {
    SettlesLater(s, t, o.s, o.event);
    if About(o.event, id) {
      var a :| Haunts(t, id, a);
      assert Haunts(s, id, a);
    }
  }

  lemma PendingLeaves<R>(s: Server<R>, time: int, id: uint32)
    requires Departed(s, id)
    ensures Leaves(s, UpdatePendingClients(s, time), id)
  {
    UpdatePendingIndexes(s, time);
  }

  lemma PassLeaves<R>(s: Server<R>, k: uint32, time: int, id: uint32)
    requires Departed(s, id) && k in s.byId
    ensures Leaves(s, UpdateClient(s, k, time), id)
  {
    UpdateClientIndexes(s, k, time);
    UpdateClientIsPoll(s, k, time);
    Client.PollKeeps(s.heap[s.byId[k]], time);
  }

  lemma {:induction false} LoopLeaves<R>(s: Server<R>, order: seq<uint32>, time: int, id: uint32)
    requires Departed(s, id) && forall k <- order :: k in s.byId
    ensures Leaves(s, UpdateClients(s, order, time), id)
    decreases |order|
  {
    if order == [] {
      SameLeaves(s, s, id);
    } else {
      var o := UpdateClient(s, order[0], time);
      PassLeaves(s, order[0], time, id);
      UpdateClientIndexes(s, order[0], time);
      if o.event.None? {
        LoopLeaves(o.s, order[1..], time, id);
        LeavesTwice(s, o.s, UpdateClients(o.s, order[1..], time), id);
      }
    }
  }

  /** A pong or a reliable handshake reaches a client of this id: it speaks if it was lost. */
  lemma RefreshLeaves<R>(s: Server<R>, from: Address, c: ClientState, id: uint32)
    requires Departed(s, id) && from in s.byAddress && WF(SetClient(s, s.byAddress[from], c)) && c.connected
    requires SameIdentity(s.heap[s.byAddress[from]], c)
    ensures var r := s.byAddress[from];
            var event := if s.heap[r].connected then None else Some(ConnectionRegained(s.heap[r].id));
            Leaves(s, Outcome(SetClient(s, r, c), event), id)
  {
    var r := s.byAddress[from];
    SetClientIndexes(s, r, c);
    if !s.heap[r].connected && s.heap[r].id == id {
      assert Haunts(s, id, from);
    }
  }

  lemma AcceptLeaves<R>(s: Server<R>, from: Address, k: uint32, time: int, id: uint32)
    requires Departed(s, id)
    ensures Leaves(s, AcceptConnection(s, from, k, time), id)
  {
    AcceptSettles(s, from, k, time);
  }

  lemma PacketLeaves<R>(s: Server<R>, from: Address, p: Packet, time: int, id: uint32)
    requires Departed(s, id)
    ensures Leaves(s, HandlePacket(s, from, p, time), id)
  {
    match p
    case ConnectionHandshake(k) => AcceptLeaves(s, from, k, time, id);
    case Pong(stamp) => PongLeaves(s, from, stamp, time, id);
    case HandshakeReset(stamp) => HandshakeLeaves(s, from, -1, stamp, time, id);
    case Handshake(bit, stamp) => HandshakeLeaves(s, from, bit, stamp, time, id);
    case _ => AnswerLeaves(s, from, p, time, id);
  }

  lemma AnswerLeaves<R>(s: Server<R>, from: Address, p: Packet, time: int, id: uint32)
    requires Departed(s, id)
    requires p.ConnectionRequest? || p.Ping? || p.Unreliable? || p.ReliableReset? || p.Reliable?
    ensures Leaves(s, HandlePacket(s, from, p, time), id)
  {
    AnswerIndexes(s, from, p, time);
  }

  lemma PongLeaves<R>(s: Server<R>, from: Address, stamp: uint32, time: int, id: uint32)
    requires Departed(s, id)
    ensures Leaves(s, AcceptPong(s, from, stamp, time), id)
  {
    AcceptPongWF(s, from, stamp, time);
    if from in s.byAddress && stamp <= time {
      RefreshLeaves(s, from, ReceivePong(s.heap[s.byAddress[from]], stamp, time), id);
    } else {
      SameLeaves(s, s, id);
    }
  }

  lemma HandshakeLeaves<R>(s: Server<R>, from: Address, state: ReliableState, stamp: uint32, time: int, id: uint32)
    requires Departed(s, id)
    ensures Leaves(s, AcceptReliableHandshake(s, from, state, stamp, time), id)
  {
    AcceptReliableHandshakeWF(s, from, state, stamp, time);
    if from in s.byAddress && stamp <= time {
      RefreshLeaves(s, from, ReceiveReliableHandshake(s.heap[s.byAddress[from]], state, stamp, time), id);
    } else {
      SameLeaves(s, s, id);
    }
  }

  lemma TurnLeaves<R>(s: Server<R>, time: int, id: uint32)
    requires Departed(s, id) && s.inbox != []
    ensures Leaves(s, Turn(s, time), id)
  {
    var d := s.inbox[0];
    HandleDatagramIs(s.(inbox := s.inbox[1..]), d, time);
    match Parse(s.signature, d.bytes)
    case Some(p) =>
      var t := s.(inbox := s.inbox[1..], prefix := s.signature);
      SameLeaves(s, t, id);
      PacketLeaves(t, d.address, p, time, id);
      LeavesTwice(s, t, HandlePacket(t, d.address, p, time), id);
    case None => SameLeaves(s, Turn(s, time).s, id);
  }

  lemma {:induction false} ReceiveLeaves<R>(s: Server<R>, offered: nat, time: int, id: uint32)
    requires Departed(s, id)
    ensures Leaves(s, ReceiveMessages(s, offered, time), id)
    decreases |s.inbox|
  {
    if Receive(s.inbox, offered).Received? {
      ReceiveStep(s, offered, time);
      TurnLeaves(s, time, id);
      var o := Turn(s, time);
      if o.event.None? {
        ReceiveLeaves(o.s, |s.inbox[0].bytes|, time, id);
        LeavesTwice(s, o.s, ReceiveMessages(o.s, |s.inbox[0].bytes|, time), id);
      }
    } else {
      StopLeaves(s, offered, time, id);
    }
  }

  lemma StopLeaves<R>(s: Server<R>, offered: nat, time: int, id: uint32)
    requires Departed(s, id) && !Receive(s.inbox, offered).Received?
    ensures Leaves(s, ReceiveMessages(s, offered, time), id)
  {
    SameLeaves(s, ReceiveMessages(s, offered, time).s, id);
  }

  lemma PollLeaves<R>(s: Server<R>, order: seq<uint32>, time: int, id: uint32)
    requires Departed(s, id) && forall k <- order :: k in s.byId
    ensures Leaves(s, ProcessEvents(s, order, time), id)
  {
    PendingLeaves(s, time, id);
    UpdatePendingIndexes(s, time);
    var o1 := UpdatePendingClients(s, time);
    if o1.event.None? {
      LoopLeaves(o1.s, order, time, id);
      LeavesTwice(s, o1.s, UpdateClients(o1.s, order, time), id);
      UpdateClientsIndexes(o1.s, order, time);
      var o2 := UpdateClients(o1.s, order, time);
      if o2.event.None? {
        SameIndexesTwice(s, o1.s, o2.s);
        ReceiveLeaves(o2.s, o2.s.bufferSize, time, id);
        LeavesTwice(s, o2.s, ReceiveMessages(o2.s, o2.s.bufferSize, time), id);
      }
    }
  }

  // ---- silence ----

  /** What mute clients do through one call: nothing. */
  lemma CallStaysMute<R>(s: Server<R>, call: Call<R>, id: uint32)
    requires Departed(s, id) && Mute(s, id) && Legal(s, call)
    ensures Departed(After(s, call).s, id) && Mute(After(s, call).s, id) && !About(After(s, call).event, id)
  {
    CallWF(s, call);
    match call
    case Process(order, time) =>
      PollLeaves(s, order, time, id);
      PollStaysMute(s, After(s, call), id);
    case _ => OtherCallStaysMute(s, call, id);
  }

  lemma PollStaysMute<R>(s: Server<R>, o: Outcome<R>, id: uint32)
    requires Departed(s, id) && Mute(s, id) && Leaves(s, o, id)
    ensures Mute(o.s, id) && !About(o.event, id)
  {
    if IsSuccess(o.event) {
      var from :| Joins(s, o.s, o.s.byId[o.event.value.id], from);
    }
  }

  lemma OtherCallStaysMute<R>(s: Server<R>, call: Call<R>, id: uint32)
    requires Departed(s, id) && Mute(s, id) && Legal(s, call) && !call.Process? && WF(After(s, call).s)
    ensures Departed(After(s, call).s, id) && Mute(After(s, call).s, id)
  {
    if call.Drop? {
      DropStaysMute(s, call.id, id);
    } else if !call.Connect? {
      CallSame(s, call);
      PushStaysMute(s, After(s, call).s, id);
    }
  }

  lemma DropStaysMute<R>(s: Server<R>, k: uint32, id: uint32)
    requires Departed(s, id) && Mute(s, id)
    ensures WF(Disconnect(s, k)) && Departed(Disconnect(s, k), id) && Mute(Disconnect(s, k), id)
  {
    DisconnectWF(s, k);
  }

  lemma PushStaysMute<R>(s: Server<R>, t: Server<R>, id: uint32)
    requires Departed(s, id) && Mute(s, id) && SameIndexes(s, t)
    requires forall q <- s.heap :: t.heap[q].connected == s.heap[q].connected
    ensures Departed(t, id) && Mute(t, id)
  {
  }

  lemma {:induction false} MuteIsSilent<R>(s: Server<R>, id: uint32, calls: seq<Call<R>>)
    requires Departed(s, id) && Mute(s, id) && Lawful(s, calls)
    ensures !Mentions(s, id, calls)
    decreases |calls|
  {
    if calls != [] {
      CallStaysMute(s, calls[0], id);
      MuteIsSilent(After(s, calls[0]).s, id, calls[1..]);
    }
  }

  // ---- speech ----

  lemma {:induction false} SomeOrder(ids: set<uint32>) returns (order: seq<uint32>)
    ensures Visits(order, ids)
    decreases ids
  {
    order := [];
    if ids != {} {
      var id :| id in ids;
      var rest := SomeOrder(ids - {id});
      order := [id] + rest;
    }
  }

  /** One more call in front of a run. */
  lemma Before<R>(s: Server<R>, call: Call<R>, calls: seq<Call<R>>, id: uint32)
    requires WF(s) && Legal(s, call) && WF(After(s, call).s) && Lawful(After(s, call).s, calls)
    ensures Lawful(s, [call] + calls)
    ensures Mentions(s, id, [call] + calls)
        <==> About(After(s, call).event, id) || Mentions(After(s, call).s, id, calls)
  {
    assert ([call] + calls)[1..] == calls;
  }

  /** A lost client of the id stays where it is until it speaks. */
  lemma PollHaunts<R>(s: Server<R>, order: seq<uint32>, time: int, id: uint32, a: Address)
    requires Departed(s, id) && Haunts(s, id, a) && forall k <- order :: k in s.byId
    ensures var o := ProcessEvents(s, order, time);
            Departed(o.s, id) && (About(o.event, id) || Haunts(o.s, id, a))
  {
    PollLeaves(s, order, time, id);
    var o := ProcessEvents(s, order, time);
    if IsSuccess(o.event) {
      var from :| Joins(s, o.s, o.s.byId[o.event.value.id], from);
    }
  }

  lemma {:induction false} LoopKeepsInbox<R>(s: Server<R>, order: seq<uint32>, time: int)
    requires WF(s) && forall k <- order :: k in s.byId
    ensures UpdateClients(s, order, time).s.inbox == s.inbox
    ensures UpdateClients(s, order, time).s.bufferSize == s.bufferSize
        && UpdateClients(s, order, time).s.signature == s.signature
    decreases |order|
  {
    if order != [] {
      UpdateClientWF(s, order[0], time);
      UpdateClientIsPoll(s, order[0], time);
      var o := UpdateClient(s, order[0], time);
      if o.event.None? {
        LoopKeepsInbox(o.s, order[1..], time);
      }
    }
  }

  lemma {:induction false} ReceiveShrinks<R>(s: Server<R>, offered: nat, time: int)
    requires WF(s)
    ensures |ReceiveMessages(s, offered, time).s.inbox| <= |s.inbox|
    ensures s.inbox != [] ==> |ReceiveMessages(s, offered, time).s.inbox| < |s.inbox|
    decreases |s.inbox|
  {
    if Receive(s.inbox, offered).Received? {
      var t := s.(inbox := s.inbox[1..]);
      HandleDatagramWF(t, s.inbox[0], time);
      var o := HandleDatagram(t, s.inbox[0], time);
      if o.event.None? {
        ReceiveShrinks(o.s, |s.inbox[0].bytes|, time);
      }
    }
  }

  /** A poll that finds datagrams and returns nothing has taken some in. */
  lemma QuietPollShrinks<R>(s: Server<R>, order: seq<uint32>, time: int)
    requires WF(s) && (forall k <- order :: k in s.byId) && s.inbox != [] && ProcessEvents(s, order, time).event.None?
    ensures |ProcessEvents(s, order, time).s.inbox| < |s.inbox|
  {
    UpdatePendingClientsWF(s, time);
    var o1 := UpdatePendingClients(s, time);
    UpdateClientsWF(o1.s, order, time);
    LoopKeepsInbox(o1.s, order, time);
    var o2 := UpdateClients(o1.s, order, time);
    ReceiveShrinks(o2.s, o2.s.bufferSize, time);
  }

  /** The datagram of a pong to a ping sent at time 0. */
  function Knock<R>(s: Server<R>, a: Address): Datagram {
    Datagram(a, Wire(s.signature, Pong(0)))
  }

  lemma KnockAnswered<R>(s: Server<R>, time: int, id: uint32, a: Address)
    requires Departed(s, id) && Haunts(s, id, a) && s.inbox == [Knock(s, a)] && time >= 0
    ensures About(ReceiveMessages(s, s.bufferSize, time).event, id)
  {
    ParseWire(s.signature, Pong(0));
    HandleDatagramIs(s.(inbox := []), Knock(s, a), time);
    assert s.inbox[1..] == [];
  }

  lemma LoopKnocked<R>(s: Server<R>, order: seq<uint32>, time: int, id: uint32, a: Address)
    requires Departed(s, id) && Haunts(s, id, a) && s.inbox == [Knock(s, a)] && time >= 0
    requires forall k <- order :: k in s.byId
    ensures var o := UpdateClients(s, order, time);
            && Departed(o.s, id) && o.s.inbox == [Knock(o.s, a)]
            && (o.event.None? ==> Haunts(o.s, id, a) && About(ReceiveMessages(o.s, o.s.bufferSize, time).event, id))
  {
    LoopLeaves(s, order, time, id);
    LoopKeepsInbox(s, order, time);
    LoopReportsNoSuccess(s, order, time);
    var o := UpdateClients(s, order, time);
    if o.event.None? {
      KnockAnswered(o.s, time, id, a);
    }
  }

  /** Alone in the inbox, it makes the lost client speak, unless another event comes first. */
  lemma PollKnocked<R>(s: Server<R>, order: seq<uint32>, time: int, id: uint32, a: Address)
    requires Departed(s, id) && Haunts(s, id, a) && s.inbox == [Knock(s, a)] && time >= 0
    requires forall k <- order :: k in s.byId
    ensures var o := ProcessEvents(s, order, time);
            About(o.event, id) || (o.event.Some? && o.s.inbox == [Knock(o.s, a)])
  {
    PendingLeaves(s, time, id);
    var o := UpdatePendingClients(s, time);
    if o.event.None? {
      LoopKnocked(o.s, order, time, id, a);
    }
  }

  /** Polled at one time until it speaks. */
  lemma {:induction false} KnockUntil<R>(s: Server<R>, time: int, id: uint32, a: Address) returns (calls: seq<Call<R>>)
    requires Departed(s, id) && Haunts(s, id, a) && s.inbox == [Knock(s, a)] && time >= 0
    ensures Lawful(s, calls) && Mentions(s, id, calls)
    decreases Polling.Pressure(s, time)
  {
    var order := SomeOrder(s.byId.Keys);
    var o := ProcessEvents(s, order, time);
    PollHaunts(s, order, time, id, a);
    PollKnocked(s, order, time, id, a);
    Polling.EventLowersPressure(s, order, time);
    calls := [];
    if !About(o.event, id) {
      calls := KnockUntil(o.s, time, id, a);
    }
    Before(s, Process(order, time), calls, id);
    calls := [Call<R>.Process(order, time)] + calls;
  }

  /** Once what has arrived is taken in, a pong from the address of a lost client makes it speak. */
  lemma {:induction false} HauntedSpeaks<R>(s: Server<R>, time: int, id: uint32, a: Address)
    returns (calls: seq<Call<R>>)
    requires Departed(s, id) && Haunts(s, id, a) && time >= 0
    ensures Lawful(s, calls) && Mentions(s, id, calls)
    decreases Polling.Pressure(s, time), |s.inbox|
  {
    if s.inbox == [] {
      var t := s.(inbox := [Knock(s, a)]);
      calls := KnockUntil(t, time, id, a);
      assert After(s, Call<R>.Arrive(Knock(s, a))).s == t;
      Before(s, Arrive(Knock(s, a)), calls, id);
      calls := [Call<R>.Arrive(Knock(s, a))] + calls;
    } else {
      var order := SomeOrder(s.byId.Keys);
      var o := ProcessEvents(s, order, time);
      PollHaunts(s, order, time, id, a);
      Polling.EventLowersPressure(s, order, time);
      calls := [];
      if !About(o.event, id) {
        if o.event.None? {
          QuietPollShrinks(s, order, time);
        }
        calls := HauntedSpeaks(o.s, time, id, a);
      }
      Before(s, Process(order, time), calls, id);
      calls := [Call<R>.Process(order, time)] + calls;
    }
  }

  // ---- the exact condition ----

  /** Whatever is called and whatever arrives from wherever, nothing is reported about a departed endpoint any more if
      and only if every client of its id left in the address index is connected. */
  lemma SilentExactly<R>(s: Server<R>, id: uint32)
    requires Departed(s, id)
    ensures Mute(s, id) <==> forall calls: seq<Call<R>> | Lawful(s, calls) :: !Mentions(s, id, calls)
  {
    if Mute(s, id) {
      forall calls: seq<Call<R>> | Lawful(s, calls) ensures !Mentions(s, id, calls) {
        MuteIsSilent(s, id, calls);
      }
    } else {
      var a :| a in s.byAddress && s.heap[s.byAddress[a]].id == id && !s.heap[s.byAddress[a]].connected;
      assert Haunts(s, id, a);
      var calls := HauntedSpeaks(s, 0, id, a);
      assert Lawful(s, calls) && Mentions(s, id, calls);
      assert exists calls: seq<Call<R>> :: Lawful(s, calls) && Mentions(s, id, calls);
    }
  }

  lemma PollNamed<R>(s: Server<R>, order: seq<uint32>, time: int)
    requires Named(s) && forall k <- order :: k in s.byId
    ensures Named(ProcessEvents(s, order, time).s)
  {
    var o := ProcessEvents(s, order, time);
    PollSettles(s, order, time);
    if IsSuccess(o.event) {
      var from :| Joins(s, o.s, o.s.byId[o.event.value.id], from);
    }
  }

  lemma CallNamed<R>(s: Server<R>, call: Call<R>)
    requires Named(s) && Legal(s, call)
    ensures Named(After(s, call).s)
  {
    CallWF(s, call);
    match call
    case Process(order, time) => PollNamed(s, order, time);
    case Connect(_, _, _, _, _) =>
    case Drop(_) =>
    case _ => CallSame(s, call);
  }

  lemma {:induction false} RunNamed<R>(s: Server<R>, h: History, calls: seq<Call<R>>)
    requires Named(s) && Lawful(s, calls)
    ensures Named(Final(s, h, calls).0)
    decreases |calls|
  {
    if calls != [] {
      CallNamed(s, calls[0]);
      RunNamed(After(s, calls[0]).s, HistoryAfter(s, h, calls[0]), calls[1..]);
    }
  }

  /** An endpoint that timed out or was disconnected has departed. */
  lemma GoneIsDeparted<R>(s: Server<R>, h: History, id: uint32)
    requires IdBook(s, h) && Named(s) && (id in h.timedOut || id in h.disconnected)
    ensures Departed(s, id)
  {
    assert Places(s, h, id) == if 1 <= id <= s.idCounter then 1 else 0;
    assert forall i | 0 <= i < |s.pending| :: PendingIds(s)[i] == s.heap[s.pending[i]].id;
  }

  /** So after every run of a new server, whoever completed its connections from where. */
  lemma SilentOnRuns<R>(s: Server<R>, calls: seq<Call<R>>, id: uint32)
    requires NewServer(s) && Lawful(s, calls)
    requires var h := Final(s, NO_HISTORY, calls).1; id in h.timedOut || id in h.disconnected
    ensures var t := Final(s, NO_HISTORY, calls).0;
            Mute(t, id) <==> forall more: seq<Call<R>> | Lawful(t, more) :: !Mentions(t, id, more)
  {
    var (t, h) := Final(s, NO_HISTORY, calls);
    IdsAlways(s, calls);
    RunNamed(s, NO_HISTORY, calls);
    GoneIsDeparted(t, h, id);
    SilentExactly(t, id);
  }

  // ---- a run into the failing state ----

  /** One more call at the end of a run. */
  lemma {:induction false} Afterwards<R>(s: Server<R>, h: History, calls: seq<Call<R>>, call: Call<R>)
    requires WF(s) && Lawful(s, calls) && Legal(Final(s, h, calls).0, call)
    ensures Lawful(s, calls + [call]) && WF(After(Final(s, h, calls).0, call).s)
    ensures var (t, k) := Final(s, h, calls);
            Final(s, h, calls + [call]) == (After(t, call).s, HistoryAfter(t, k, call))
    decreases |calls|
  {
    if calls == [] {
      CallWF(s, call);
      assert [] + [call] == [call] && [call][1..] == [];
    } else {
      CallWF(s, calls[0]);
      assert (calls + [call])[1..] == calls[1..] + [call];
      Afterwards(After(s, calls[0]).s, HistoryAfter(s, h, calls[0]), calls[1..], call);
    }
  }

  const EARLY := 1000
  const LATE := 2000

  /** The client of a connect to `x` at EARLY, with the periods of a timeout of 5000 ms: 5000 and 500. */
  function Caller(x: Address): ClientState {
    StartConnecting(NewClient(1, x, PassedPingPeriod(5000), PassedTimeoutPeriod(5000)), EARLY)
  }

  /** The server called `x`, was answered from `y`, and found the connection lost. */
  ghost predicate AnsweredAndLost<R>(s: Server<R>, r: R, x: Address, y: Address) {
    && WF(s) && s.idCounter == 1 && s.pending == [] && s.byId == map[1 := r] && s.byAddress == map[y := r]
    && s.heap == map[r := SetConnectionLost(ReceiveConnectionHandshake(Caller(x), EARLY))] && s.inbox == []
  }

  lemma ConnectTo<R>(s: Server<R>, r: R, x: Address) returns (calls: seq<Call<R>>)
    requires NewServer(s) && s.inbox == []
    ensures Lawful(s, calls)
    ensures var (t, h) := Final(s, NO_HISTORY, calls);
            && h == NO_HISTORY && t.signature == s.signature && t.bufferSize == s.bufferSize
            && t.idCounter == 1 && t.pending == [r] && t.byId == map[] && t.byAddress == map[]
            && t.heap == map[r := Caller(x)] && t.inbox == []
  {
    var call := Call<R>.Connect(r, x, PassedPingPeriod(5000), PassedTimeoutPeriod(5000), EARLY);
    Afterwards(s, NO_HISTORY, [], call);
    calls := [] + [call];
  }

  /** The handshake from `y` completes the connection. */
  lemma AnsweredFrom<R>(s: Server<R>, r: R, x: Address, y: Address)
    requires WF(s) && s.idCounter == 1 && s.pending == [r] && s.byId == map[] && s.byAddress == map[]
    requires s.heap == map[r := Caller(x)] && s.inbox == [Datagram(y, Wire(s.signature, ConnectionHandshake(1)))]
    ensures var o := ProcessEvents(s, [], EARLY);
            && o.event == Some(ConnectionSuccess(1)) && o.s.idCounter == 1 && o.s.pending == []
            && o.s.byId == map[1 := r] && o.s.byAddress == map[y := r]
            && o.s.heap == map[r := ReceiveConnectionHandshake(Caller(x), EARLY)] && o.s.inbox == []
            && o.s.signature == s.signature && o.s.bufferSize == s.bufferSize
  {
    assert UpdatePendingClients(s, EARLY) == Outcome(s, None) && UpdateClients(s, [], EARLY) == Outcome(s, None);
    var d := s.inbox[0];
    var t := s.(inbox := []);
    assert s.inbox[1..] == [] && Receive(s.inbox, s.bufferSize) == Received(d);
    ParseWire(s.signature, ConnectionHandshake(1));
    HandleDatagramIs(t, d, EARLY);
    assert HandleDatagram(t, d, EARLY) == AcceptConnection(t.(prefix := t.signature), y, 1, EARLY);
    assert ReceiveMessages(s, s.bufferSize, EARLY) == HandleDatagram(t, d, EARLY);
  }

  /** Half a second and more later it is lost. */
  lemma FoundLost<R>(s: Server<R>, r: R, x: Address, y: Address)
    requires WF(s) && s.idCounter == 1 && s.pending == [] && s.byId == map[1 := r] && s.byAddress == map[y := r]
    requires s.heap == map[r := ReceiveConnectionHandshake(Caller(x), EARLY)] && s.inbox == []
    ensures var o := ProcessEvents(s, [1], LATE);
            && o.event == Some(ConnectionLost(1)) && AnsweredAndLost(o.s, r, x, y) && o.s.signature == s.signature
            && o.s.bufferSize == s.bufferSize
  {
    OverdueIsLost(x);
    UpdateClientIsPoll(s, 1, LATE);
    OnlyPass(s, 1, LATE);
  }

  /** A poll with nobody waiting whose only pass reports a loss. */
  lemma OnlyPass<R>(s: Server<R>, id: uint32, time: int)
    requires WF(s) && s.pending == [] && id in s.byId && UpdateClient(s, id, time).event.Some?
    ensures ProcessEvents(s, [id], time) == UpdateClient(s, id, time)
  {
    UpdateClientWF(s, id, time);
    assert [id][0] == id;
  }

  lemma OverdueIsLost(x: Address)
    ensures var c := ReceiveConnectionHandshake(Caller(x), EARLY); Poll(c, LATE) == (SetConnectionLost(c), [], true)
  {
    var none: seq<Packet> := [];
    assert none + none == none;
  }

  /** Disconnected, it is still found under the address it answered from. */
  lemma DropHaunts<R>(s: Server<R>, r: R, x: Address, y: Address)
    requires AnsweredAndLost(s, r, x, y) && x != y
    ensures var t := Disconnect(s, 1);
            && t == s.(byId := map[]) && WF(t) && Haunts(t, 1, y)
  {
    DisconnectWF(s, 1);
    assert s.byAddress - {x} == s.byAddress;
    assert s.byId - {1} == map[];
  }

  /** And speaks when a pong comes from there. */
  lemma KnockRegains<R>(s: Server<R>, a: Address)
    requires WF(s) && s.pending == [] && s.byId == map[] && Haunts(s, 1, a) && s.inbox == [Knock(s, a)]
    ensures ProcessEvents(s, [], LATE).event == Some(ConnectionRegained(1))
  {
    var t := s.(inbox := []);
    assert UpdatePendingClients(s, LATE) == Outcome(s, None) && UpdateClients(s, [], LATE) == Outcome(s, None);
    assert s.inbox[1..] == [] && Receive(s.inbox, s.bufferSize) == Received(Knock(s, a));
    ParseWire(s.signature, Pong(0));
    HandleDatagramIs(t, Knock(s, a), LATE);
    assert ReceiveMessages(s, s.bufferSize, LATE) == HandleDatagram(t, Knock(s, a), LATE);
  }

  /** The connection completed: connect to `x`, and the handshake from `y`. */
  lemma AnsweredRun<R>(s: Server<R>, r: R, x: Address, y: Address) returns (calls: seq<Call<R>>)
    requires NewServer(s) && s.inbox == []
    ensures Lawful(s, calls)
    ensures var (t, h) := Final(s, NO_HISTORY, calls);
            && t.idCounter == 1 && t.pending == [] && t.byId == map[1 := r] && t.byAddress == map[y := r]
            && t.heap == map[r := ReceiveConnectionHandshake(Caller(x), EARLY)] && t.inbox == []
            && h == Record(NO_HISTORY, Some(ConnectionSuccess(1)))
  {
    calls := ConnectTo(s, r, x);
    var t := Final(s, NO_HISTORY, calls).0;
    var arrive := Call<R>.Arrive(Datagram(y, Wire(s.signature, ConnectionHandshake(1))));
    Afterwards(s, NO_HISTORY, calls, arrive);
    AnsweredFrom(After(t, arrive).s, r, x, y);
    Afterwards(s, NO_HISTORY, calls + [arrive], Process([], EARLY));
    calls := calls + [arrive] + [Call<R>.Process([], EARLY)];
  }

  /** Lost and disconnected. */
  lemma HauntedRun<R>(s: Server<R>, r: R, x: Address, y: Address) returns (calls: seq<Call<R>>)
    requires NewServer(s) && s.inbox == [] && x != y
    ensures Lawful(s, calls)
    ensures var (t, h) := Final(s, NO_HISTORY, calls);
            && 1 in h.disconnected && t.pending == [] && t.byId == map[] && Haunts(t, 1, y) && t.inbox == []
  {
    calls := AnsweredRun(s, r, x, y);
    var (t, h) := Final(s, NO_HISTORY, calls);
    FoundLost(t, r, x, y);
    Afterwards(s, NO_HISTORY, calls, Process([1], LATE));
    var u := ProcessEvents(t, [1], LATE).s;
    DropHaunts(u, r, x, y);
    Afterwards(s, NO_HISTORY, calls + [Call<R>.Process([1], LATE)], Drop(1));
    calls := calls + [Call<R>.Process([1], LATE)] + [Call<R>.Drop(1)];
  }

  /** The promise fails on this run of a new server: connect to `x`, a handshake from `y`, no answer for half a second,
      disconnect, a pong from `y`. The poll that takes in the pong reports the disconnected endpoint as REGAINED. */
  lemma DisconnectedRegains<R>(s: Server<R>, r: R, x: Address, y: Address) returns (calls: seq<Call<R>>)
    requires NewServer(s) && s.inbox == [] && x != y
    ensures Lawful(s, calls)
    ensures var (t, h) := Final(s, NO_HISTORY, calls);
            && 1 in h.disconnected && !Mute(t, 1) && t.byId == map[]
            && ProcessEvents(t, [], LATE).event == Some(ConnectionRegained(1))
  {
    calls := HauntedRun(s, r, x, y);
    var t := Final(s, NO_HISTORY, calls).0;
    var arrive := Call<R>.Arrive(Knock(t, y));
    Afterwards(s, NO_HISTORY, calls, arrive);
    calls := calls + [arrive];
    KnockRegains(After(t, arrive).s, y);
  }
}
