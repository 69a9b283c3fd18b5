// What a run of a server is to one of its connected clients: passes of the client loop that reach it, answers from the
// address it is indexed under, and messages queued for it (src/UdcServer.cpp:136-151, 342-407, 468-607). Nothing else a
// server does, in whatever order and for whatever other peers, touches the client. The results about its timers and
// flags are about this sequence.

module Beats {
  import opened Bytes
  import opened Message
  import opened Client
  import opened ServerSpec
  import opened Reception
  import opened IndexTables
  import opened Runs
  import opened Connected
  import opened Requests
  import opened LinkSender
  import opened LinkReply

  datatype Beat =
    | Pass(time: int)
    | Heard(stamp: uint32, time: int)
    | Acknowledged(state: ReliableState, stamp: uint32, time: int)
    | Queued(m: seq<byte>)

  function Next(c: ClientState, beat: Beat): ClientState {
    match beat
    case Pass(t) => Poll(c, t).0
    case Heard(stamp, t) => if t < stamp then c else ReceivePong(c, stamp, t)
    case Acknowledged(state, stamp, t) => ReceiveReliableHandshake(c, state, stamp, t)
    case Queued(m) => c.(queue := c.queue + [m])
  }

  function Through(c: ClientState, beats: seq<Beat>): ClientState {
    if beats == [] then c else Next(Through(c, beats[..|beats| - 1]), beats[|beats| - 1])
  }

  /** Some pass reports the connection lost. */
  predicate LossIn(c: ClientState, beats: seq<Beat>) {
    beats != []
    && var k := |beats| - 1;
       LossIn(c, beats[..k]) || (beats[k].Pass? && Poll(Through(c, beats[..k]), beats[k].time).2)
  }

  lemma {:induction false} ThroughAppend(c: ClientState, x: seq<Beat>, y: seq<Beat>)
    ensures Through(c, x + y) == Through(Through(c, x), y)
    ensures LossIn(c, x + y) <==> LossIn(c, x) || LossIn(Through(c, x), y)
    decreases |y|
  {
    if y == [] {
      assert x + y == x;
    } else {
      var k := |y| - 1;
      assert (x + y)[..|x + y| - 1] == x + y[..k];
      ThroughAppend(c, x, y[..k]);
    }
  }

  lemma ThroughOne(c: ClientState, beat: Beat)
    ensures Through(c, [beat]) == Next(c, beat) && (LossIn(c, [beat]) <==> beat.Pass? && Poll(c, beat.time).2)
  {
    assert [beat][..0] == [];
  }

  lemma {:induction false} ThroughKeeps(c: ClientState, beats: seq<Beat>)
    ensures SameIdentity(c, Through(c, beats))
    decreases |beats|
  {
    if beats != [] {
      var k := |beats| - 1;
      ThroughKeeps(c, beats[..k]);
      if beats[k].Pass? {
        Client.PollKeeps(Through(c, beats[..k]), beats[k].time);
      }
    }
  }

  /** An operation is `beats` to client `r`, and reports it lost exactly if one of them does. */
  ghost predicate Tells<R>(s: Server<R>, o: Outcome<R>, r: R, beats: seq<Beat>) {
    && r in s.heap && r in o.s.heap && o.s.heap[r] == Through(s.heap[r], beats)
    && (o.event == Some(ConnectionLost(s.heap[r].id)) <==> LossIn(s.heap[r], beats))
  }

  lemma TellsTwice<R>(s: Server<R>, o: Outcome<R>, p: Outcome<R>, r: R, x: seq<Beat>, y: seq<Beat>)
    requires Tells(s, o, r, x) && o.event.None? && Tells(o.s, p, r, y)
    ensures Tells(s, p, r, x + y)
  {
    ThroughAppend(s.heap[r], x, y);
    ThroughKeeps(s.heap[r], x);
  }

  lemma TellsNothing<R>(s: Server<R>, o: Outcome<R>, r: R)
    requires r in s.heap && r in o.s.heap && o.s.heap[r] == s.heap[r]
    requires o.event != Some(ConnectionLost(s.heap[r].id))
    ensures Tells(s, o, r, [])
  {
  }

  // ---- the passes ----

  /** The turn of the client with the id `id` comes before a loss ends the loop. */
  predicate PassReaches<R>(s: Server<R>, id: uint32, order: seq<uint32>, time: int)
    requires WF(s) && forall i <- order :: i in s.byId
    decreases |order|
  {
    order != []
    && (order[0] == id
        || (UpdateClientWF(s, order[0], time);
            var o := UpdateClient(s, order[0], time);
            o.event.None? && PassReaches(o.s, id, order[1..], time)))
  }

  /** The server when that turn comes. */
  function AtPass<R>(s: Server<R>, id: uint32, order: seq<uint32>, time: int): Server<R>
    requires WF(s) && (forall i <- order :: i in s.byId) && PassReaches(s, id, order, time)
    decreases |order|
  {
    if order[0] == id then s
    else
      UpdateClientWF(s, order[0], time);
      AtPass(UpdateClient(s, order[0], time).s, id, order[1..], time)
  }

  lemma OtherPass<R>(s: Server<R>, r: R, other: uint32, time: int)
    requires Indexed(s, r) && other in s.byId && other != s.heap[r].id
    ensures var o := UpdateClient(s, other, time);
            && Tells(s, o, r, []) && Indexed(o.s, r) && o.s.byId == s.byId && o.s.heap[r] == s.heap[r]
            && s.outbox <= o.s.outbox
  {
    var o := UpdateClient(s, other, time);
    UpdateClientIndexes(s, other, time);
    IndexedStays(s, o.s, r);
    UpdateClientIsPoll(s, other, time);
    Client.PollKeeps(s.heap[s.byId[other]], time);
    assert s.heap[s.byId[other]].id != s.heap[r].id;
    TellsNothing(s, o, r);
  }

  lemma OwnPass<R>(s: Server<R>, r: R, time: int)
    requires Indexed(s, r)
    ensures var o := UpdateClient(s, s.heap[r].id, time);
            Tells(s, o, r, [Pass(time)]) && Indexed(o.s, r) && o.s.byId == s.byId && o.s.heap[r].id == s.heap[r].id
  {
    var o := UpdateClient(s, s.heap[r].id, time);
    UpdateClientIndexes(s, s.heap[r].id, time);
    IndexedStays(s, o.s, r);
    UpdateClientIsPoll(s, s.heap[r].id, time);
    ThroughOne(s.heap[r], Pass(time));
    Client.PollKeeps(s.heap[r], time);
  }

  /** The rest of the loop, once the client has had its turn. */
  lemma {:induction false} LaterPasses<R>(s: Server<R>, r: R, order: seq<uint32>, time: int)
    requires Indexed(s, r) && (forall i <- order :: i in s.byId) && s.heap[r].id !in order
    ensures Tells(s, UpdateClients(s, order, time), r, [])
    decreases |order|
  {
    if order != [] {
      OtherPass(s, r, order[0], time);
      var o := UpdateClient(s, order[0], time);
      if o.event.None? {
        LaterPasses(o.s, r, order[1..], time);
        TellsTwice(s, o, UpdateClients(o.s, order[1..], time), r, [], []);
      }
    }
  }

  lemma OwnTurn<R>(s: Server<R>, r: R, order: seq<uint32>, time: int)
    requires Indexed(s, r) && order != [] && order[0] == s.heap[r].id && order[0] !in order[1..]
    requires forall i <- order :: i in s.byId
    ensures Tells(s, UpdateClients(s, order, time), r, [Pass(time)])
  {
    OwnPass(s, r, time);
    var o := UpdateClient(s, order[0], time);
    if o.event.None? {
      LaterPasses(o.s, r, order[1..], time);
      TellsTwice(s, o, UpdateClients(o.s, order[1..], time), r, [Pass(time)], []);
      assert [Pass(time)] + [] == [Pass(time)];
    }
  }

  function PassBeats<R>(s: Server<R>, id: uint32, order: seq<uint32>, time: int): seq<Beat>
    requires WF(s) && forall i <- order :: i in s.byId
  {
    if PassReaches(s, id, order, time) then [Pass(time)] else []
  }

  lemma {:induction false} LoopTells<R>(s: Server<R>, r: R, order: seq<uint32>, time: int)
    requires Indexed(s, r) && (forall i <- order :: i in s.byId) && Distinct(order)
    ensures Tells(s, UpdateClients(s, order, time), r, PassBeats(s, s.heap[r].id, order, time))
    decreases |order|
  {
    if order != [] {
      DistinctTail(order);
      if order[0] == s.heap[r].id {
        OwnTurn(s, r, order, time);
      } else {
        OtherPass(s, r, order[0], time);
        var o := UpdateClient(s, order[0], time);
        if o.event.None? {
          LoopTells(o.s, r, order[1..], time);
          var beats := PassBeats(s, s.heap[r].id, order, time);
          TellsTwice(s, o, UpdateClients(o.s, order[1..], time), r, [], beats);
          assert [] + beats == beats;
        }
      }
    }
  }

  // ---- receiving ----

  function PacketBeats(p: Packet, time: int): seq<Beat> {
    match p
    case Pong(stamp) => [Heard(stamp, time)]
    case Handshake(bit, stamp) => [Acknowledged(bit, stamp, time)]
    case HandshakeReset(stamp) => [Acknowledged(-1, stamp, time)]
    case _ => []
  }

  lemma PongTells<R>(s: Server<R>, r: R, from: Address, stamp: uint32, time: int)
    requires WF(s) && r in s.heap
    ensures Tells(s, AcceptPong(s, from, stamp, time), r,
                  if from in s.byAddress && s.byAddress[from] == r then [Heard(stamp, time)] else [])
  {
    ThroughOne(s.heap[r], Heard(stamp, time));
  }

  lemma HandshakeTells<R>(s: Server<R>, r: R, from: Address, state: ReliableState, stamp: uint32, time: int)
    requires WF(s) && r in s.heap
    ensures Tells(s, AcceptReliableHandshake(s, from, state, stamp, time), r,
                  if from in s.byAddress && s.byAddress[from] == r then [Acknowledged(state, stamp, time)] else [])
  {
    ThroughOne(s.heap[r], Acknowledged(state, stamp, time));
  }

  lemma PacketTells<R>(s: Server<R>, r: R, from: Address, p: Packet, time: int)
    requires WF(s) && r in s.heap && r !in s.pending
    ensures Tells(s, HandlePacket(s, from, p, time), r,
                  if from in s.byAddress && s.byAddress[from] == r then PacketBeats(p, time) else [])
  {
    match p
    case Pong(stamp) => PongTells(s, r, from, stamp, time);
    case Handshake(bit, stamp) => HandshakeTells(s, r, from, bit, stamp, time);
    case HandshakeReset(stamp) => HandshakeTells(s, r, from, -1, stamp, time);
    case _ => TellsNothing(s, HandlePacket(s, from, p, time), r);
  }

  function TurnBeats<R>(s: Server<R>, r: R, time: int): seq<Beat>
    requires s.inbox != []
  {
    var p := Parse(s.signature, s.inbox[0].bytes);
    var from := s.inbox[0].address;
    if p.Some? && from in s.byAddress && s.byAddress[from] == r then PacketBeats(p.value, time) else []
  }

  lemma TurnTells<R>(s: Server<R>, r: R, time: int)
    requires Indexed(s, r) && s.inbox != []
    ensures Tells(s, Turn(s, time), r, TurnBeats(s, r, time)) && Indexed(Turn(s, time).s, r)
  {
    var s1 := s.(inbox := s.inbox[1..]);
    var d := s.inbox[0];
    HandleDatagramIs(s1, d, time);
    TurnSettles(s, time);
    SettledIndexed(s, Turn(s, time).s, Turn(s, time).event, r);
    match Parse(s.signature, d.bytes)
    case Some(p) => PacketTells(s1.(prefix := s.signature), r, d.address, p, time);
    case None => TellsNothing(s, Turn(s, time), r);
  }

  function ReceiveBeats<R>(s: Server<R>, r: R, offered: nat, time: int): seq<Beat>
    requires WF(s)
    decreases |s.inbox|
  {
    if !Receive(s.inbox, offered).Received? then []
    else
      TurnBeats(s, r, time)
      + if Turn(s, time).event.Some? then []
        else ReceiveBeats(Turn(s, time).s, r, |s.inbox[0].bytes|, time)
  }

  lemma {:induction false} ReceiveTells<R>(s: Server<R>, r: R, offered: nat, time: int)
    requires Indexed(s, r)
    ensures Tells(s, ReceiveMessages(s, offered, time), r, ReceiveBeats(s, r, offered, time))
    decreases |s.inbox|
  {
    if Receive(s.inbox, offered).Received? {
      ReceiveStep(s, offered, time);
      TurnTells(s, r, time);
      var o := Turn(s, time);
      if o.event.Some? {
        assert TurnBeats(s, r, time) + [] == TurnBeats(s, r, time);
      } else {
        ReceiveTells(o.s, r, |s.inbox[0].bytes|, time);
        TellsTwice(s, o, ReceiveMessages(o.s, |s.inbox[0].bytes|, time), r, TurnBeats(s, r, time),
                   ReceiveBeats(o.s, r, |s.inbox[0].bytes|, time));
      }
    } else {
      TellsNothing(s, ReceiveMessages(s, offered, time), r);
    }
  }

  /** An answer taken in at `time`. */
  predicate AnswerAt(beat: Beat, time: int) {
    (beat.Heard? || beat.Acknowledged?) && beat.time == time
  }

  lemma {:induction false} ReceiveHears<R>(s: Server<R>, r: R, offered: nat, time: int)
    requires WF(s)
    ensures forall b <- ReceiveBeats(s, r, offered, time) :: AnswerAt(b, time)
    decreases |s.inbox|
  {
    if Receive(s.inbox, offered).Received? && Turn(s, time).event.None? {
      ReceiveHears(Turn(s, time).s, r, |s.inbox[0].bytes|, time);
    }
  }

  // ---- whole polls ----

  function ServeBeats<R>(s: Server<R>, r: R, id: uint32, order: seq<uint32>, time: int): seq<Beat>
    requires WF(s) && forall i <- order :: i in s.byId
  {
    UpdateClientsWF(s, order, time);
    var o := UpdateClients(s, order, time);
    PassBeats(s, id, order, time) + if o.event.Some? then [] else ReceiveBeats(o.s, r, o.s.bufferSize, time)
  }

  lemma ServeTells<R>(s: Server<R>, r: R, order: seq<uint32>, time: int)
    requires Indexed(s, r) && (forall i <- order :: i in s.byId) && Distinct(order)
    ensures Tells(s, Serve(s, order, time), r, ServeBeats(s, r, s.heap[r].id, order, time))
  {
    LoopTells(s, r, order, time);
    var o := UpdateClients(s, order, time);
    UpdateClientsIndexes(s, order, time);
    IndexedStays(s, o.s, r);
    var beats := PassBeats(s, s.heap[r].id, order, time);
    if o.event.None? {
      ReceiveTells(o.s, r, o.s.bufferSize, time);
      TellsTwice(s, o, ReceiveMessages(o.s, o.s.bufferSize, time), r, beats,
                 ReceiveBeats(o.s, r, o.s.bufferSize, time));
    } else {
      assert beats + [] == beats;
    }
  }

  /** The poll gets as far as the turn of the client with the id `id`. */
  predicate PollReaches<R>(s: Server<R>, id: uint32, order: seq<uint32>, time: int)
    requires WF(s) && forall i <- order :: i in s.byId
  {
    UpdatePendingClientsWF(s, time);
    var o := UpdatePendingClients(s, time);
    o.event.None? && PassReaches(o.s, id, order, time)
  }

  /** The server when that turn comes. */
  function AtPoll<R>(s: Server<R>, id: uint32, order: seq<uint32>, time: int): Server<R>
    requires WF(s) && (forall i <- order :: i in s.byId) && PollReaches(s, id, order, time)
  {
    UpdatePendingClientsWF(s, time);
    AtPass(UpdatePendingClients(s, time).s, id, order, time)
  }

  function PollBeats<R>(s: Server<R>, r: R, id: uint32, order: seq<uint32>, time: int): seq<Beat>
    requires WF(s) && forall i <- order :: i in s.byId
  {
    UpdatePendingClientsWF(s, time);
    var o := UpdatePendingClients(s, time);
    if o.event.Some? then [] else ServeBeats(o.s, r, id, order, time)
  }

  /** A poll is at most one pass, if it gets that far, and then answers. */
  lemma PollShape<R>(s: Server<R>, r: R, id: uint32, order: seq<uint32>, time: int) returns (heard: seq<Beat>)
    requires WF(s) && forall i <- order :: i in s.byId
    ensures PollBeats(s, r, id, order, time)
            == (if PollReaches(s, id, order, time) then [Pass(time)] else []) + heard
    ensures forall b <- heard :: AnswerAt(b, time)
  {
    heard := [];
    UpdatePendingClientsWF(s, time);
    var o := UpdatePendingClients(s, time);
    if o.event.None? {
      UpdateClientsWF(o.s, order, time);
      var p := UpdateClients(o.s, order, time);
      if p.event.None? {
        ReceiveHears(p.s, r, p.s.bufferSize, time);
        heard := ReceiveBeats(p.s, r, p.s.bufferSize, time);
      }
    }
  }

  lemma PendingTells<R>(s: Server<R>, r: R, time: int)
    requires Indexed(s, r)
    ensures var o := UpdatePendingClients(s, time);
            Tells(s, o, r, []) && Indexed(o.s, r) && o.s.byId == s.byId && o.s.heap[r] == s.heap[r]
            && s.outbox <= o.s.outbox
  {
    UpdatePendingIndexes(s, time);
    IndexedStays(s, UpdatePendingClients(s, time).s, r);
    TellsNothing(s, UpdatePendingClients(s, time), r);
  }

  lemma PollTells<R>(s: Server<R>, r: R, order: seq<uint32>, time: int)
    requires Indexed(s, r) && (forall i <- order :: i in s.byId) && Distinct(order)
    ensures Tells(s, ProcessEvents(s, order, time), r, PollBeats(s, r, s.heap[r].id, order, time))
  {
    var o := UpdatePendingClients(s, time);
    PendingTells(s, r, time);
    if o.event.None? {
      assert ProcessEvents(s, order, time) == Serve(o.s, order, time);
      ServeTells(o.s, r, order, time);
      var beats := ServeBeats(o.s, r, s.heap[r].id, order, time);
      TellsTwice(s, o, Serve(o.s, order, time), r, [], beats);
      assert [] + beats == beats;
    }
  }

  // ---- runs ----

  ghost function CallBeats<R>(s: Server<R>, r: R, id: uint32, call: Call<R>): seq<Beat>
    requires WF(s) && Legal(s, call)
  {
    match call
    case Process(order, time) => PollBeats(s, r, id, order, time)
    case PushReliable(i, data) => if i == id && SendReliable(s, i, data).1 then [Queued(data)] else []
    case _ => []
  }

  lemma PushTells<R>(s: Server<R>, r: R, i: uint32, data: seq<byte>)
    requires Indexed(s, r) && |data| < 0x1_0000_0000
    ensures Tells(s, Outcome(SendReliable(s, i, data).0, None), r,
                  if i == s.heap[r].id && SendReliable(s, i, data).1 then [Queued(data)] else [])
  {
    ThroughOne(s.heap[r], Queued(data));
  }

  lemma CallTells<R>(s: Server<R>, r: R, call: Call<R>)
    requires Indexed(s, r) && Legal(s, call)
    ensures Tells(s, After(s, call), r, CallBeats(s, r, s.heap[r].id, call))
  {
    match call
    case Process(order, time) => PollTells(s, r, order, time);
    case PushReliable(i, data) => PushTells(s, r, i, data);
    case _ => TellsNothing(s, After(s, call), r);
  }

  /** The whole run, to the client. */
  ghost function RunBeats<R>(s: Server<R>, r: R, id: uint32, calls: seq<Call<R>>): seq<Beat>
    requires WF(s) && Lawful(s, calls)
    decreases |calls|
  {
    if calls == [] then []
    else
      CallWF(s, calls[0]);
      CallBeats(s, r, id, calls[0]) + RunBeats(After(s, calls[0]).s, r, id, calls[1..])
  }

  /** Some poll of the run reports the endpoint lost. */
  ghost predicate ReportsLost<R>(s: Server<R>, id: uint32, calls: seq<Call<R>>)
    requires WF(s) && Lawful(s, calls)
    decreases |calls|
  {
    calls != []
    && (After(s, calls[0]).event == Some(ConnectionLost(id))
        || (CallWF(s, calls[0]); ReportsLost(After(s, calls[0]).s, id, calls[1..])))
  }

  /** The endpoint is not disconnected. */
  ghost predicate Stays<R>(calls: seq<Call<R>>, id: uint32) {
    forall c <- calls :: c.Drop? ==> c.id != id
  }

  lemma {:induction false} RunTells<R>(s: Server<R>, h: Ledger.History, r: R, calls: seq<Call<R>>)
    requires Indexed(s, r) && Lawful(s, calls) && Stays(calls, s.heap[r].id)
    ensures var t := Final(s, h, calls).0;
            && Indexed(t, r) && t.heap[r] == Through(s.heap[r], RunBeats(s, r, s.heap[r].id, calls))
            && t.heap[r].id == s.heap[r].id
    ensures ReportsLost(s, s.heap[r].id, calls) <==> LossIn(s.heap[r], RunBeats(s, r, s.heap[r].id, calls))
    decreases |calls|
  {
    if calls != [] {
      var o := After(s, calls[0]);
      CallTells(s, r, calls[0]);
      CallIndexed(s, r, calls[0]);
      RunTells(o.s, HistoryAfter(s, h, calls[0]), r, calls[1..]);
      ThroughAppend(s.heap[r], CallBeats(s, r, s.heap[r].id, calls[0]),
                    RunBeats(o.s, r, s.heap[r].id, calls[1..]));
    }
  }

  // ---- what a pass sends ----

  /** The datagrams one pass over the client hands to the socket. */
  function PassSent<R>(v: Server<R>, id: uint32, time: int): seq<Datagram>
    requires WF(v) && id in v.byId
  {
    UpdateClientIsPoll(v, id, time);
    UpdateClient(v, id, time).s.outbox[|v.outbox|..]
  }

  lemma PassSentIs<R>(v: Server<R>, id: uint32, time: int)
    requires WF(v) && id in v.byId
    ensures var c := v.heap[v.byId[id]];
            PassSent(v, id, time) == Datagrams(v.prefix, c.outgoing, Poll(c, time).1)
  {
    UpdateClientIsPoll(v, id, time);
    Client.PollKeeps(v.heap[v.byId[id]], time);
  }

  /** When its turn comes, nothing has happened to the client yet, and what its pass sends is still in the outbox when
      the loop ends. */
  lemma {:induction false} AtPassSame<R>(s: Server<R>, r: R, order: seq<uint32>, time: int)
    requires Indexed(s, r) && (forall i <- order :: i in s.byId) && PassReaches(s, s.heap[r].id, order, time)
    ensures var v := AtPass(s, s.heap[r].id, order, time);
            && Indexed(v, r) && v.heap[r] == s.heap[r] && s.outbox <= v.outbox
            && UpdateClient(v, s.heap[r].id, time).s.outbox <= UpdateClients(s, order, time).s.outbox
    decreases |order|
  {
    var o := UpdateClient(s, order[0], time);
    if order[0] == s.heap[r].id {
      if o.event.None? {
        UpdateClientWF(s, order[0], time);
        UpdateClientsRequestless(o.s, order[1..], time);
      }
    } else {
      OtherPass(s, r, order[0], time);
      AtPassSame(o.s, r, order[1..], time);
    }
  }

  /** The same for a whole poll. */
  lemma AtPollSame<R>(s: Server<R>, r: R, order: seq<uint32>, time: int)
    requires Indexed(s, r) && (forall i <- order :: i in s.byId) && PollReaches(s, s.heap[r].id, order, time)
    ensures var v := AtPoll(s, s.heap[r].id, order, time);
            && Indexed(v, r) && v.heap[r] == s.heap[r] && s.outbox <= v.outbox
            && UpdateClient(v, s.heap[r].id, time).s.outbox <= ProcessEvents(s, order, time).s.outbox
  {
    PendingTells(s, r, time);
    var o := UpdatePendingClients(s, time);
    AtPassSame(o.s, r, order, time);
    UpdateClientsWF(o.s, order, time);
    var p := UpdateClients(o.s, order, time);
    if p.event.None? {
      ReceiveRequestless(p.s, p.s.bufferSize, time);
    }
  }
}
