// What a connect call leads to.

module Attempts {
  import opened Bytes
  import opened Message
  import opened Client
  import opened ServerSpec
  import opened Reception
  import opened IndexTables
  import opened Ledger
  import opened Runs
  import opened Newcomers
  import opened Connected
  import opened Requests
  import opened LinkReply
  import opened Beats

  // When the request goes out, to whom, and when the attempt times out, in terms of the timeout the caller gave
  // (src/udp_connect.cpp:112-149, src/UdcClient.cpp:69-93, src/UdcServer.cpp:301-338).

  // ---- one poll, while a client waits in front ----

  /** The pending stage alone reports timeouts. */
  predicate IsTimeout(event: Option<Event>) {
    event.Some? && event.value.ConnectionTimeout?
  }

  /** At most the front of the queue left, and no timeout was reported. */
  predicate Pops<R(==)>(s: Server<R>, o: Outcome<R>) {
    && (o.s.pending == s.pending || (s.pending != [] && o.s.pending == s.pending[1..] && o.event.Some?))
    && !IsTimeout(o.event)
  }

  lemma {:induction false} LoopPops<R>(s: Server<R>, order: seq<uint32>, time: int)
    requires WF(s) && forall i <- order :: i in s.byId
    ensures Pops(s, UpdateClients(s, order, time)) && UpdateClients(s, order, time).s.pending == s.pending
    decreases |order|
  {
    if order != [] {
      UpdateClientWF(s, order[0], time);
      UpdateClientIsPoll(s, order[0], time);
      var o := UpdateClient(s, order[0], time);
      if o.event.None? {
        LoopPops(o.s, order[1..], time);
      }
    }
  }

  lemma PacketPops<R>(s: Server<R>, from: Address, p: Packet, time: int)
    requires WF(s)
    ensures Pops(s, HandlePacket(s, from, p, time))
  {
  }

  lemma TurnPops<R>(s: Server<R>, time: int)
    requires WF(s) && s.inbox != []
    ensures Pops(s, Turn(s, time))
  {
    var s1 := s.(inbox := s.inbox[1..]);
    HandleDatagramIs(s1, s.inbox[0], time);
    match Parse(s.signature, s.inbox[0].bytes)
    case Some(p) => PacketPops(s1.(prefix := s.signature), s.inbox[0].address, p, time);
    case None =>
  }

  lemma {:induction false} ReceivePops<R>(s: Server<R>, offered: nat, time: int)
    requires WF(s)
    ensures Pops(s, ReceiveMessages(s, offered, time))
    decreases |s.inbox|
  {
    if Receive(s.inbox, offered).Received? {
      ReceiveStep(s, offered, time);
      TurnPops(s, time);
      if Turn(s, time).event.None? {
        ReceivePops(Turn(s, time).s, |s.inbox[0].bytes|, time);
      }
    }
  }

  /** After the pending stage a poll sends no request and touches no attempt. */
  lemma ServePops<R>(s: Server<R>, order: seq<uint32>, time: int)
    requires WF(s) && forall i <- order :: i in s.byId
    ensures var o := Serve(s, order, time); Pops(s, o) && Requestless(s, o.s)
  {
    LoopPops(s, order, time);
    UpdateClientsRequestless(s, order, time);
    var o := UpdateClients(s, order, time);
    if o.event.None? {
      UpdateClientsWF(s, order, time);
      ReceivePops(o.s, o.s.bufferSize, time);
      ReceiveRequestless(o.s, o.s.bufferSize, time);
      RequestlessTwice(s, o.s, ReceiveMessages(o.s, o.s.bufferSize, time).s);
    }
  }

  /** The CONNECTION_REQUESTs among some datagrams. */
  function RequestsIn(sent: seq<Datagram>): seq<Datagram> {
    if sent == [] then []
    else RequestsIn(sent[..|sent| - 1]) + if TaggedRequest(sent[|sent| - 1]) then [sent[|sent| - 1]] else []
  }

  lemma {:induction false} RequestsAppend(sent: seq<Datagram>, more: seq<Datagram>)
    requires NoneTagged(more)
    ensures RequestsIn(sent + more) == RequestsIn(sent)
    decreases |more|
  {
    if more == [] {
      assert sent + more == sent;
    } else {
      var k := |more| - 1;
      assert (sent + more)[..|sent + more| - 1] == sent + more[..k];
      RequestsAppend(sent, more[..k]);
    }
  }

  /** What the pending stage sends for a client that does not time out. */
  function Asking(c: ClientState, prefix: Signature, time: int): seq<Datagram> {
    if NeedsConnectionAttempt(c, time) then [Datagram(c.outgoing, Wire(prefix, ConnectionRequest(c.id)))] else []
  }

  lemma AskingIsRequest(c: ClientState, prefix: Signature, time: int)
    ensures RequestsIn(Asking(c, prefix, time)) == Asking(c, prefix, time)
  {
    var sent := Asking(c, prefix, time);
    if sent != [] {
      assert sent[..0] == [];
    }
  }

  /** The requests a poll adds to the outbox. */
  function PollRequests<R>(s: Server<R>, order: seq<uint32>, time: int): seq<Datagram>
    requires WF(s) && forall i <- order :: i in s.byId
  {
    var out := ProcessEvents(s, order, time).s.outbox;
    if |s.outbox| <= |out| then RequestsIn(out[|s.outbox|..]) else []
  }

  lemma AskedBy<R>(s: Server<R>, sent: seq<Datagram>, t: Server<R>, u: Server<R>)
    requires t.outbox == s.outbox + sent && Requestless(t, u)
    ensures |s.outbox| <= |u.outbox| && RequestsIn(u.outbox[|s.outbox|..]) == RequestsIn(sent)
  {
    var more := u.outbox[|t.outbox|..];
    assert u.outbox == t.outbox + more;
    assert u.outbox[|s.outbox|..] == sent + more;
    RequestsAppend(sent, more);
  }

  /** The front client is still in front, or gone for good. */
  lemma FrontPops<R>(s: Server<R>, o: Outcome<R>)
    requires s.pending != [] && Distinct(s.pending)
    requires o.s.pending == s.pending || o.s.pending == s.pending[1..]
    ensures s.pending[0] in o.s.pending ==> o.s.pending[0] == s.pending[0]
    ensures o.s.pending != s.pending ==> s.pending[0] !in o.s.pending
  {
    assert forall i | 0 < i < |s.pending| :: s.pending[i] != s.pending[0];
  }

  lemma PollTimesOut<R>(s: Server<R>, r: R, order: seq<uint32>, time: int)
    requires PendingApart(s) && s.pending != [] && s.pending[0] == r && forall i <- order :: i in s.byId
    requires NeedsConnectionTimeoutEvent(s.heap[r], time)
    ensures var o := ProcessEvents(s, order, time);
            o.event == Some(ConnectionTimeout(s.heap[r].id)) && r !in o.s.pending
  {
    FrontPops(s, UpdatePendingClients(s, time));
  }

  lemma PendingAsks<R>(s: Server<R>, r: R, time: int)
    requires WF(s) && s.pending != [] && s.pending[0] == r && !NeedsConnectionTimeoutEvent(s.heap[r], time)
    ensures var c := s.heap[r];
            var o := UpdatePendingClients(s, time);
            && o.event.None? && WF(o.s) && o.s.byId == s.byId && o.s.pending == s.pending
            && o.s.outbox == s.outbox + Asking(c, s.prefix, time)
            && r in o.s.heap && o.s.heap[r] == if NeedsConnectionAttempt(c, time) then RetryConnecting(c, time) else c
  {
    UpdatePendingClientsWF(s, time);
  }

  lemma PollAsks<R>(s: Server<R>, r: R, order: seq<uint32>, time: int)
    requires PendingApart(s) && s.pending != [] && s.pending[0] == r && forall i <- order :: i in s.byId
    requires !NeedsConnectionTimeoutEvent(s.heap[r], time)
    ensures var c := s.heap[r];
            var o := ProcessEvents(s, order, time);
            && !IsTimeout(o.event)
            && PollRequests(s, order, time) == Asking(c, s.prefix, time)
            && r in o.s.heap
            && SameAttempts(if NeedsConnectionAttempt(c, time) then RetryConnecting(c, time) else c, o.s.heap[r])
            && (r in o.s.pending ==> o.s.pending[0] == r)
  {
    var c := s.heap[r];
    PendingAsks(s, r, time);
    var o1 := UpdatePendingClients(s, time);
    var o := Serve(o1.s, order, time);
    assert ProcessEvents(s, order, time) == o;
    ServePops(o1.s, order, time);
    AskedBy(s, Asking(c, s.prefix, time), o1.s, o.s);
    AskingIsRequest(c, s.prefix, time);
    FrontPops(o1.s, o);
  }

  // ---- runs ----

  /** `r` waits in front since `start`, and was asked for if `asked`. */
  ghost predicate Waits<R>(s: Server<R>, r: R, c: ClientState, asked: bool) {
    && PendingApart(s) && s.pending != [] && s.pending[0] == r
    && SameIdentity(c, s.heap[r]) && s.heap[r].firstConnectAttemptTime == c.firstConnectAttemptTime
    && if asked then s.heap[r].prevConnectAttemptTime >= c.firstConnectAttemptTime
       else s.heap[r].prevConnectAttemptTime == 0
  }

  /** A client that left the queue does not come back. */
  lemma CallStaysOut<R>(s: Server<R>, r: R, call: Call<R>)
    requires WF(s) && Legal(s, call) && r in s.heap && r !in s.pending
    ensures r in After(s, call).s.heap && r !in After(s, call).s.pending
  {
    match call
    case Process(order, time) => PollSettles(s, order, time);
    case _ =>
  }

  lemma {:induction false} StaysOut<R>(s: Server<R>, h: History, r: R, calls: seq<Call<R>>)
    requires WF(s) && Lawful(s, calls) && r in s.heap && r !in s.pending
    ensures r !in Final(s, h, calls).0.pending
    decreases |calls|
  {
    if calls != [] {
      CallWF(s, calls[0]);
      CallStaysOut(s, r, calls[0]);
      StaysOut(After(s, calls[0]).s, HistoryAfter(s, h, calls[0]), r, calls[1..]);
    }
  }

  /** The client is at an attempt period of its own length, longer than its timeout, and its clock is past that. */
  predicate OneAttempt(c: ClientState, start: int) {
    && c.firstConnectAttemptTime == start && c.connectionAttemptPeriod <= start
    && c.connectionTimeoutPeriod <= c.connectionAttemptPeriod
  }

  lemma PollWaits<R>(s: Server<R>, r: R, c: ClientState, asked: bool, order: seq<uint32>, time: int)
    requires Waits(s, r, c, asked) && OneAttempt(c, c.firstConnectAttemptTime) && time >= c.firstConnectAttemptTime
    requires forall i <- order :: i in s.byId
    ensures var o := ProcessEvents(s, order, time);
            var timesOut := time >= c.firstConnectAttemptTime + c.connectionTimeoutPeriod;
            && (o.event == Some(ConnectionTimeout(c.id)) <==> timesOut)
            && (!timesOut ==> PollRequests(s, order, time)
                              == if asked then [] else [Datagram(c.outgoing, Wire(s.prefix, ConnectionRequest(c.id)))])
            && r in o.s.heap && (r in o.s.pending ==> Waits(o.s, r, c, true))
  {
    PollFresh(s, order, time);
    PollSettles(s, order, time);
    if NeedsConnectionTimeoutEvent(s.heap[r], time) {
      PollTimesOut(s, r, order, time);
    } else {
      PollAsks(s, r, order, time);
    }
  }

  lemma DropWaits<R>(s: Server<R>, r: R, c: ClientState, asked: bool, id: uint32)
    requires Waits(s, r, c, asked) && id != c.id
    ensures Waits(Disconnect(s, id), r, c, asked)
  {
    DropApart(s, id);
  }

  lemma CallWaits<R>(s: Server<R>, r: R, c: ClientState, asked: bool, call: Call<R>)
    requires Waits(s, r, c, asked) && OneAttempt(c, c.firstConnectAttemptTime) && Legal(s, call)
    requires (call.Drop? ==> call.id != c.id) && (call.Process? ==> call.time >= c.firstConnectAttemptTime)
    ensures var t := After(s, call).s; r in t.heap && (r in t.pending ==> Waits(t, r, c, asked || call.Process?))
  {
    match call
    case Process(order, time) => PollWaits(s, r, c, asked, order, time);
    case Drop(id) => DropWaits(s, r, c, asked, id);
    case _ => CallFresh(s, call);
  }

  /** No call is a poll. */
  ghost predicate Unpolled<R>(calls: seq<Call<R>>) {
    forall i | 0 <= i < |calls| :: !calls[i].Process?
  }

  lemma UnpolledTail<R>(calls: seq<Call<R>>)
    requires calls != []
    ensures Unpolled(calls) <==> !calls[0].Process? && Unpolled(calls[1..])
  {
    assert calls == [calls[0]] + calls[1..];
  }

  lemma {:induction false} RunWaits<R>(s: Server<R>, h: History, r: R, c: ClientState, asked: bool, calls: seq<Call<R>>,
          now: int)
    requires Waits(s, r, c, asked) && OneAttempt(c, c.firstConnectAttemptTime)
    requires Lawful(s, calls) && Stays(calls, c.id) && Clocked(calls, now) && now >= c.firstConnectAttemptTime
    ensures var t := Final(s, h, calls).0; r in t.pending ==> Waits(t, r, c, asked || !Unpolled(calls))
    decreases |calls|
  {
    if calls != [] {
      var t := After(s, calls[0]).s;
      CallWF(s, calls[0]);
      CallWaits(s, r, c, asked, calls[0]);
      var more := asked || calls[0].Process?;
      UnpolledTail(calls);
      if r in t.pending {
        RunWaits(t, HistoryAfter(s, h, calls[0]), r, c, more, calls[1..], ClockAfter(calls[0], now));
      } else {
        StaysOut(t, HistoryAfter(s, h, calls[0]), r, calls[1..]);
      }
    }
  }

  lemma ConnectWaits<R>(s: Server<R>, r: R, to: Address, timeout: uint32, start: int)
    requires PendingApart(s) && s.pending == [] && r !in s.heap && s.idCounter < 0xFFFF_FFFF
    requires timeout != 0 && timeout <= start
    ensures var (u, id) := TryConnect(s, r, to, timeout, start);
            && r in u.heap && id == Some(u.heap[r].id) && u.heap[r].outgoing == to
            && u.heap[r].connectionTimeoutPeriod == (if timeout / 10 < 500 then timeout / 10 else 500)
            && OneAttempt(u.heap[r], start) && Waits(u, r, u.heap[r], false)
  {
  }

  /** A connect call, on a server with nothing pending after any run, with a timeout no larger than the clock. While the
      endpoint still waits, whatever else the caller and the network do: a poll reports its TIMEOUT if and only if it
      comes min(500, timeout / 10) ms or more after the connect call. Before that, the first poll sends one
      CONNECTION_REQUEST, with the id just issued, to the address given; no other poll sends any. */
  lemma AttemptExactly<R>(s: Server<R>, before: seq<Call<R>>, r: R, to: Address, timeout: uint32, start: int,
          calls: seq<Call<R>>, order: seq<uint32>, time: int)
    requires NewServer(s) && Lawful(s, before)
    requires var t := Final(s, NO_HISTORY, before).0;
             && t.pending == [] && r !in t.heap && t.idCounter < 0xFFFF_FFFF && timeout != 0 && timeout <= start <= time
             && var (u, id) := TryConnect(t, r, to, timeout, start);
                && WF(u) && id.Some? && Lawful(u, calls) && Clocked(calls, start) && Stays(calls, id.value)
                && var v := Final(u, NO_HISTORY, calls).0;
                   r in v.pending && forall i <- order :: i in v.byId
    ensures var (u, id) := TryConnect(Final(s, NO_HISTORY, before).0, r, to, timeout, start);
            var v := Final(u, NO_HISTORY, calls).0;
            var due := start + if timeout / 10 < 500 then timeout / 10 else 500;
            && (ProcessEvents(v, order, time).event == Some(ConnectionTimeout(id.value)) <==> time >= due)
            && (time < due ==>
                  PollRequests(v, order, time)
                  == if Unpolled(calls) then [Datagram(to, Wire(v.prefix, ConnectionRequest(id.value)))] else [])
  {
    var t := Final(s, NO_HISTORY, before).0;
    var (u, id) := TryConnect(t, r, to, timeout, start);
    RunApart(s, NO_HISTORY, before);
    ConnectWaits(t, r, to, timeout, start);
    RunWaits(u, NO_HISTORY, r, u.heap[r], false, calls, start);
    PollWaits(Final(u, NO_HISTORY, calls).0, r, u.heap[r], !Unpolled(calls), order, time);
  }

  // ---- the periods ----

  lemma CallSameIdentity<R>(s: Server<R>, r: R, call: Call<R>)
    requires WF(s) && Legal(s, call) && r in s.heap
    ensures r in After(s, call).s.heap && SameIdentity(s.heap[r], After(s, call).s.heap[r])
  {
    match call
    case Process(order, time) => PollSettles(s, order, time);
    case _ =>
  }

  lemma {:induction false} RunSameIdentity<R>(s: Server<R>, h: History, r: R, calls: seq<Call<R>>)
    requires WF(s) && Lawful(s, calls) && r in s.heap
    ensures r in Final(s, h, calls).0.heap && SameIdentity(s.heap[r], Final(s, h, calls).0.heap[r])
    decreases |calls|
  {
    if calls != [] {
      CallWF(s, calls[0]);
      CallSameIdentity(s, r, calls[0]);
      RunSameIdentity(After(s, calls[0]).s, HistoryAfter(s, h, calls[0]), r, calls[1..]);
    }
  }

  /** The periods the timers of an endpoint run on, through every run after the connect call: the timeout given is the
      ping and attempt period, min(500, timeout / 10) all the others. */
  lemma PeriodsFromTimeout<R>(s: Server<R>, r: R, to: Address, timeout: uint32, start: int, calls: seq<Call<R>>)
    requires WF(s) && timeout != 0 && WF(TryConnect(s, r, to, timeout, start).0)
    requires Lawful(TryConnect(s, r, to, timeout, start).0, calls)
    ensures var (u, id) := TryConnect(s, r, to, timeout, start);
            var t := Final(u, NO_HISTORY, calls).0;
            var short := if timeout / 10 < 500 then timeout / 10 else 500;
            && r in t.heap && id == Some(t.heap[r].id) && t.heap[r].outgoing == to
            && t.heap[r].pingPeriod == timeout && t.heap[r].connectionAttemptPeriod == timeout
            && t.heap[r].connectionTimeoutPeriod == short && t.heap[r].connectionLostPeriod == short
            && t.heap[r].reliableTimeoutPeriod == short
  {
    RunSameIdentity(TryConnect(s, r, to, timeout, start).0, NO_HISTORY, r, calls);
  }
}
