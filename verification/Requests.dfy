// How many CONNECTION_REQUESTs one endpoint sends (src/UdcServer.cpp:301-338, src/UdcClient.cpp:69-93).

module Requests {
  import opened Bytes
  import opened Message
  import opened Client
  import opened ServerSpec
  import opened Ledger
  import opened Runs

  predicate TaggedRequest(d: Datagram) {
    |d.bytes| > 4 && d.bytes[4] == CONNECTION_REQUEST
  }

  /** A CONNECTION_REQUEST of endpoint `id`, under whatever signature. */
  predicate IsRequest(d: Datagram, id: uint32) {
    TaggedRequest(d) && |d.bytes| == CONNECTION_SIZE && d.bytes[5..] == Encode32(id)
  }

  function Count(sent: seq<Datagram>, id: uint32): nat {
    if sent == [] then 0
    else Count(sent[..|sent| - 1], id) + if IsRequest(sent[|sent| - 1], id) then 1 else 0
  }

  lemma {:induction false} CountSame(sent: seq<Datagram>, more: seq<Datagram>, id: uint32)
    requires |sent| <= |more| && more[..|sent|] == sent
    requires forall i | |sent| <= i < |more| :: !TaggedRequest(more[i])
    ensures Count(more, id) == Count(sent, id)
    decreases |more|
  {
    if |more| > |sent| {
      var less := more[..|more| - 1];
      assert less[..|sent|] == sent;
      CountSame(sent, less, id);
    } else {
      assert more == sent;
    }
  }

  lemma CountOne(sent: seq<Datagram>, to: Address, prefix: Signature, id: uint32, other: uint32)
    ensures Count(sent + [Datagram(to, Wire(prefix, ConnectionRequest(id)))], other)
        == Count(sent, other) + if other == id then 1 else 0
  {
    var d := Datagram(to, Wire(prefix, ConnectionRequest(id)));
    assert (sent + [d])[..|sent|] == sent;
    assert d.bytes[5..] == Encode32(id);
    if other != id && Encode32(other) == Encode32(id) {
      DecodeEncode32(id);
      DecodeEncode32(other);
    }
  }

  // ---- the bound on one client ----

  /** `n` periods after `start`. */
  function Spaced(start: int, n: nat, period: int): int {
    if n == 0 then start else Spaced(start, n - 1, period) + period
  }

  lemma {:induction false} SpacedIs(start: int, n: nat, period: int)
    ensures Spaced(start, n, period) == start + n * period
  {
    if n > 0 {
      SpacedIs(start, n - 1, period);
      assert n * period == (n - 1) * period + period;
    }
  }

  /** `n` requests so far: the last at least n - 1 attempt periods after the connect call, and before the timeout. */
  predicate Paced(c: ClientState, n: nat, now: int) {
    && c.firstConnectAttemptTime <= now
    && (n > 0 ==>
          && c.prevConnectAttemptTime <= now
          && c.prevConnectAttemptTime >= Spaced(c.firstConnectAttemptTime, n - 1, c.connectionAttemptPeriod)
          && c.prevConnectAttemptTime - c.firstConnectAttemptTime < c.connectionTimeoutPeriod)
  }

  lemma PacedOneMore(c: ClientState, n: nat, now: int, time: int)
    requires Paced(c, n, now) && now <= time
    requires NeedsConnectionAttempt(c, time) && !NeedsConnectionTimeoutEvent(c, time)
    ensures Paced(RetryConnecting(c, time), n + 1, time)
  {
  }

  /** n <= ceil(timeout period / attempt period). */
  predicate WithinBudget(c: ClientState, n: nat) {
    n > 0 ==> (n - 1) * c.connectionAttemptPeriod < c.connectionTimeoutPeriod
  }

  /** Which is what it says. */
  lemma BudgetIsCeiling(c: ClientState, n: nat)
    requires c.connectionAttemptPeriod > 0 && c.connectionTimeoutPeriod >= 0
    ensures WithinBudget(c, n) <==>
              n <= (c.connectionTimeoutPeriod + c.connectionAttemptPeriod - 1) / c.connectionAttemptPeriod
  {
    var p, t := c.connectionAttemptPeriod, c.connectionTimeoutPeriod;
    assert n > 0 ==> (n - 1) * p == n * p - p;
    QuotientBound(t + p - 1, p, n);
  }

  lemma QuotientBound(x: int, p: int, n: int)
    requires p > 0
    ensures n <= x / p <==> n * p <= x
  {
    var q := x / p;
    assert x == q * p + x % p;
    if n <= q {
      assert (q - n) * p >= 0;
      assert q * p == n * p + (q - n) * p;
    } else {
      assert (n - q - 1) * p >= 0;
      assert n * p == (q + 1) * p + (n - q - 1) * p;
    }
  }

  lemma AtLeastTimes(k: nat, x: nat)
    requires k >= 1
    ensures k * x >= x
  {
    assert k * x == (k - 1) * x + x;
  }

  /** With the periods udcTryConnectIPv4/6 pass, that is at most one request; for timeouts below 10 ms it is none. */
  lemma PassedPeriodsAllowOne(c: ClientState, n: nat, timeout: uint32)
    requires timeout != 0 && WithinBudget(c, n)
    requires c.connectionAttemptPeriod == PassedPingPeriod(timeout)
        && c.connectionTimeoutPeriod == PassedTimeoutPeriod(timeout)
    ensures n <= 1 && (timeout < 10 ==> n == 0)
  {
    if n >= 2 {
      AtLeastTimes(n - 1, timeout);
    }
  }

  // ---- the server ----

  ghost predicate Budgeted<R>(s: Server<R>, now: int) {
    && WF(s) && KnownIds(s)
    && (forall r <- s.heap :: Paced(s.heap[r], Count(s.outbox, s.heap[r].id), now))
    && (forall id: uint32 | id > s.idCounter :: Count(s.outbox, id) == 0)
  }

  predicate SameAttempts(c: ClientState, d: ClientState) {
    SameIdentity(c, d) && c.firstConnectAttemptTime == d.firstConnectAttemptTime
        && c.prevConnectAttemptTime == d.prevConnectAttemptTime
  }

  /** No request sent, no attempt timer touched. */
  ghost predicate Requestless<R>(s: Server<R>, t: Server<R>) {
    && t.idCounter == s.idCounter && t.heap.Keys == s.heap.Keys
    && (forall r <- s.heap :: SameAttempts(s.heap[r], t.heap[r]))
    && |s.outbox| <= |t.outbox| && t.outbox[..|s.outbox|] == s.outbox
    && (forall i | |s.outbox| <= i < |t.outbox| :: !TaggedRequest(t.outbox[i]))
  }

  lemma RequestlessKeeps<R>(s: Server<R>, t: Server<R>, now: int)
    requires Budgeted(s, now) && WF(t) && Requestless(s, t)
    ensures Budgeted(t, now)
  {
    forall id: uint32 ensures Count(t.outbox, id) == Count(s.outbox, id) {
      CountSame(s.outbox, t.outbox, id);
    }
    forall r <- t.heap ensures Paced(t.heap[r], Count(t.outbox, t.heap[r].id), now) {
      assert SameAttempts(s.heap[r], t.heap[r]);
    }
  }

  lemma RequestlessTwice<R>(s: Server<R>, t: Server<R>, u: Server<R>)
    requires Requestless(s, t) && Requestless(t, u)
    ensures Requestless(s, u)
  {
    assert u.outbox[..|s.outbox|] == u.outbox[..|t.outbox|][..|s.outbox|];
    assert forall i | |s.outbox| <= i < |t.outbox| :: u.outbox[i] == u.outbox[..|t.outbox|][i] == t.outbox[i];
  }

  lemma Later<R>(s: Server<R>, now: int, time: int)
    requires Budgeted(s, now) && now <= time
    ensures Budgeted(s, time)
  {
  }

  /** `t` is `s` with one more request of client `r`, sent at `time`. */
  ghost predicate Attempted<R>(s: Server<R>, t: Server<R>, r: R, time: int) {
    && r in s.heap && t.idCounter == s.idCounter && t.heap == s.heap[r := RetryConnecting(s.heap[r], time)]
    && forall id: uint32 :: Count(t.outbox, id) == Count(s.outbox, id) + if id == s.heap[r].id then 1 else 0
  }

  lemma RequestAttempted<R>(s: Server<R>, r: R, time: int)
    requires r in s.heap
    ensures var c := s.heap[r];
            Attempted(s, Send(SetClient(s, r, RetryConnecting(c, time)), c.outgoing, ConnectionRequest(c.id)), r, time)
  {
    var c := s.heap[r];
    forall id: uint32 {
      CountOne(s.outbox, c.outgoing, s.prefix, c.id, id);
    }
  }

  lemma AttemptPaced<R>(s: Server<R>, t: Server<R>, r: R, q: R, now: int, time: int)
    requires Budgeted(s, now) && now <= time && Attempted(s, t, r, time) && q in s.heap
    requires NeedsConnectionAttempt(s.heap[r], time) && !NeedsConnectionTimeoutEvent(s.heap[r], time)
    ensures Paced(t.heap[q], Count(t.outbox, t.heap[q].id), time)
  {
    if q == r {
      PacedOneMore(s.heap[r], Count(s.outbox, s.heap[r].id), now, time);
    } else {
      assert s.heap[q].id != s.heap[r].id;
    }
  }

  /** The first pending client sends one more request. */
  lemma AttemptBudgeted<R>(s: Server<R>, t: Server<R>, r: R, now: int, time: int)
    requires Budgeted(s, now) && now <= time && Attempted(s, t, r, time) && WF(t)
    requires NeedsConnectionAttempt(s.heap[r], time) && !NeedsConnectionTimeoutEvent(s.heap[r], time)
    ensures Budgeted(t, time)
  {
    forall q <- t.heap ensures Paced(t.heap[q], Count(t.outbox, t.heap[q].id), time) {
      AttemptPaced(s, t, r, q, now, time);
    }
  }

  lemma UpdatePendingBudgeted<R>(s: Server<R>, now: int, time: int)
    requires Budgeted(s, now) && now <= time
    ensures Budgeted(UpdatePendingClients(s, time).s, time)
  {
    UpdatePendingClientsWF(s, time);
    Later(s, now, time);
    if s.pending != [] {
      var c := s.heap[s.pending[0]];
      if !NeedsConnectionTimeoutEvent(c, time) && NeedsConnectionAttempt(c, time) {
        RequestAttempted(s, s.pending[0], time);
        AttemptBudgeted(s, UpdatePendingClients(s, time).s, s.pending[0], now, time);
      }
    }
  }

  predicate NoneTagged(sent: seq<Datagram>) {
    forall i | 0 <= i < |sent| :: !TaggedRequest(sent[i])
  }

  lemma {:induction false} DatagramsUntagged(prefix: Signature, to: Address, packets: seq<Packet>)
    requires forall p <- packets :: !p.ConnectionRequest?
    ensures NoneTagged(Datagrams(prefix, to, packets))
  {
    if packets != [] {
      assert packets[0] in packets;
      DatagramsUntagged(prefix, to, packets[1..]);
    }
  }

  lemma AppendRequestless<R>(s: Server<R>, t: Server<R>, more: seq<Datagram>)
    requires t.outbox == s.outbox + more && NoneTagged(more)
    requires t.idCounter == s.idCounter && t.heap.Keys == s.heap.Keys
    requires forall r <- s.heap :: SameAttempts(s.heap[r], t.heap[r])
    ensures Requestless(s, t)
  {
  }

  lemma SentRequestless<R>(s: Server<R>, r: R, c: ClientState, packets: seq<Packet>)
    requires r in s.heap && SameAttempts(s.heap[r], c) && forall p <- packets :: !p.ConnectionRequest?
    ensures Requestless(s, Sent(s, r, c, packets))
  {
    DatagramsUntagged(s.prefix, c.outgoing, packets);
    AppendRequestless(s, Sent(s, r, c, packets), Datagrams(s.prefix, c.outgoing, packets));
  }

  lemma PollSendsNoRequest(c: ClientState, time: int)
    ensures SameAttempts(c, Poll(c, time).0)
    ensures forall p <- Poll(c, time).1 :: !p.ConnectionRequest?
  {
    PollKeeps(c, time);
  }

  lemma UpdateClientRequestless<R>(s: Server<R>, id: uint32, time: int)
    requires WF(s) && id in s.byId
    ensures Requestless(s, UpdateClient(s, id, time).s)
  {
    var r := s.byId[id];
    UpdateClientIsPoll(s, id, time);
    PollSendsNoRequest(s.heap[r], time);
    SentRequestless(s, r, Poll(s.heap[r], time).0, Poll(s.heap[r], time).1);
  }

  lemma {:induction false} UpdateClientsRequestless<R>(s: Server<R>, order: seq<uint32>, time: int)
    requires WF(s) && forall id <- order :: id in s.byId
    ensures Requestless(s, UpdateClients(s, order, time).s)
    decreases |order|
  {
    if order != [] {
      UpdateClientRequestless(s, order[0], time);
      UpdateClientWF(s, order[0], time);
      var o := UpdateClient(s, order[0], time);
      if o.event.None? {
        UpdateClientsRequestless(o.s, order[1..], time);
        RequestlessTwice(s, o.s, UpdateClients(s, order, time).s);
      }
    }
  }

  lemma SendRequestless<R>(s: Server<R>, states: map<Address, Bit>, to: Address, p: Packet)
    requires !p.ConnectionRequest?
    ensures Requestless(s, Send(s.(reliableStates := states), to, p))
  {
  }

  lemma SetClientRequestless<R>(s: Server<R>, r: R, c: ClientState)
    requires r in s.heap && SameAttempts(s.heap[r], c)
    ensures Requestless(s, SetClient(s, r, c))
  {
  }

  lemma AcceptConnectionRequestless<R>(s: Server<R>, from: Address, id: uint32, time: int)
    requires WF(s)
    ensures Requestless(s, AcceptConnection(s, from, id, time).s)
  {
    if s.pending != [] {
      SetClientRequestless(s, s.pending[0], ReceiveConnectionHandshake(s.heap[s.pending[0]], time));
    }
  }

  lemma AcceptPongRequestless<R>(s: Server<R>, from: Address, stamp: uint32, time: int)
    requires WF(s)
    ensures Requestless(s, AcceptPong(s, from, stamp, time).s)
  {
    if from in s.byAddress {
      SetClientRequestless(s, s.byAddress[from], ReceivePong(s.heap[s.byAddress[from]], stamp, time));
    }
  }

  lemma AcceptReliableHandshakeRequestless<R>(s: Server<R>, from: Address, state: ReliableState, stamp: uint32,
          time: int)
    requires WF(s)
    ensures Requestless(s, AcceptReliableHandshake(s, from, state, stamp, time).s)
  {
    if from in s.byAddress {
      SetClientRequestless(s, s.byAddress[from], ReceiveReliableHandshake(s.heap[s.byAddress[from]], state, stamp,
          time));
    }
  }

  lemma HandlePacketRequestless<R>(s: Server<R>, from: Address, p: Packet, time: int)
    requires WF(s)
    ensures Requestless(s, HandlePacket(s, from, p, time).s)
  {
    match p
    case ConnectionRequest(id) => SendRequestless(s, s.reliableStates, from, ConnectionHandshake(id));
    case Ping(stamp) => SendRequestless(s, s.reliableStates, from, Pong(stamp));
    case Unreliable(_) =>
    case ReliableReset(stamp) =>
      SendRequestless(s, WithEntry(s.reliableStates, from, ReceiveReset(EntryOf(s.reliableStates, from))), from,
          HandshakeReset(stamp));
    case Reliable(bit, stamp, data) =>
      SendRequestless(s, WithEntry(s.reliableStates, from, Some(Flip(bit))), from, Handshake(bit, stamp));
    case ConnectionHandshake(id) => AcceptConnectionRequestless(s, from, id, time);
    case Pong(stamp) => AcceptPongRequestless(s, from, stamp, time);
    case HandshakeReset(stamp) => AcceptReliableHandshakeRequestless(s, from, -1, stamp, time);
    case Handshake(bit, stamp) => AcceptReliableHandshakeRequestless(s, from, bit, stamp, time);
  }

  lemma HandleDatagramRequestless<R>(s: Server<R>, d: Datagram, time: int)
    requires WF(s)
    ensures Requestless(s, HandleDatagram(s, d, time).s)
  {
    var s1 := s.(prefix := Land(s.prefix, d.bytes));
    var p := Parse(s.signature, d.bytes);
    if |d.bytes| >= HEADER_SIZE && s1.prefix == s.signature && p.Some? {
      HandlePacketRequestless(s1, d.address, p.value, time);
    }
  }

  lemma {:induction false} ReceiveRequestless<R>(s: Server<R>, offered: nat, time: int)
    requires WF(s)
    ensures Requestless(s, ReceiveMessages(s, offered, time).s)
    decreases |s.inbox|
  {
    if Receive(s.inbox, offered).Received? {
      var s1 := s.(inbox := s.inbox[1..]);
      HandleDatagramWF(s1, s.inbox[0], time);
      HandleDatagramRequestless(s1, s.inbox[0], time);
      var o := HandleDatagram(s1, s.inbox[0], time);
      if o.event.None? {
        ReceiveRequestless(o.s, |s.inbox[0].bytes|, time);
        RequestlessTwice(s1, o.s, ReceiveMessages(s, offered, time).s);
      }
    }
  }

  lemma ProcessBudgeted<R>(s: Server<R>, order: seq<uint32>, now: int, time: int)
    requires Budgeted(s, now) && now <= time && forall id <- order :: id in s.byId
    ensures Budgeted(ProcessEvents(s, order, time).s, time)
  {
    UpdatePendingBudgeted(s, now, time);
    UpdatePendingClientsWF(s, time);
    var o1 := UpdatePendingClients(s, time);
    if o1.event.None? {
      UpdateClientsRequestless(o1.s, order, time);
      UpdateClientsWF(o1.s, order, time);
      var o2 := UpdateClients(o1.s, order, time);
      RequestlessKeeps(o1.s, o2.s, time);
      if o2.event.None? {
        ReceiveRequestless(o2.s, o2.s.bufferSize, time);
        ReceiveMessagesWF(o2.s, o2.s.bufferSize, time);
        RequestlessKeeps(o2.s, ReceiveMessages(o2.s, o2.s.bufferSize, time).s, time);
      }
    }
  }

  lemma ConnectBudgeted<R>(s: Server<R>, r: R, outgoing: Address, pingPeriod: int, timeoutPeriod: int, now: int,
          time: int)
    requires Budgeted(s, now) && now <= time && r !in s.heap && s.idCounter < 0xFFFF_FFFF
    ensures Budgeted(AddPending(s, r, outgoing, pingPeriod, timeoutPeriod, time), time)
  {
    Later(s, now, time);
    AddPendingWF(s, r, outgoing, pingPeriod, timeoutPeriod, time);
  }

  lemma PushReliableBudgeted<R>(s: Server<R>, id: uint32, data: seq<byte>, now: int)
    requires Budgeted(s, now) && |data| < 0x1_0000_0000 && TestHolds(s.bufferSize, RELIABLE_SIZE, |data|)
    ensures Budgeted(SendReliable(s, id, data).0, now)
  {
    SendWF(s, id, data);
    if id in s.byId {
      SetClientRequestless(s, s.byId[id], s.heap[s.byId[id]].(queue := s.heap[s.byId[id]].queue + [data]));
    }
    RequestlessKeeps(s, SendReliable(s, id, data).0, now);
  }

  lemma PushUnreliableBudgeted<R>(s: Server<R>, id: uint32, data: seq<byte>, now: int)
    requires Budgeted(s, now) && |data| < 0x1_0000_0000
    ensures Budgeted(SendUnreliable(s, id, data).0, now)
  {
    if id in s.byId {
      SendRequestless(s, s.reliableStates, s.heap[s.byId[id]].outgoing, Unreliable(data));
    }
    RequestlessKeeps(s, SendUnreliable(s, id, data).0, now);
  }

  // ---- runs ----

  /** The clock the caller reads in connects and polls, starting from `now`. */
  function ClockAfter<R>(call: Call<R>, now: int): int {
    if call.Connect? || call.Process? then call.time else now
  }

  /** It never goes back. */
  predicate Clocked<R>(calls: seq<Call<R>>, now: int)
    decreases |calls|
  {
    calls != [] ==> now <= ClockAfter(calls[0], now) && Clocked(calls[1..], ClockAfter(calls[0], now))
  }

  lemma DropBudgeted<R>(s: Server<R>, id: uint32, now: int)
    requires Budgeted(s, now)
    ensures Budgeted(Disconnect(s, id), now)
  {
    DisconnectWF(s, id);
    RequestlessKeeps(s, Disconnect(s, id), now);
  }

  lemma ArriveBudgeted<R>(s: Server<R>, d: Datagram, now: int)
    requires Budgeted(s, now)
    ensures Budgeted(s.(inbox := s.inbox + [d]), now)
  {
    RequestlessKeeps(s, s.(inbox := s.inbox + [d]), now);
  }

  lemma CallBudgeted<R>(s: Server<R>, call: Call<R>, now: int)
    requires Budgeted(s, now) && Legal(s, call) && now <= ClockAfter(call, now)
    ensures Budgeted(After(s, call).s, ClockAfter(call, now))
  {
    match call
    case Connect(r, outgoing, pingPeriod, timeoutPeriod, time) =>
      ConnectBudgeted(s, r, outgoing, pingPeriod, timeoutPeriod, now, time);
    case Drop(id) => DropBudgeted(s, id, now);
    case PushReliable(id, data) => PushReliableBudgeted(s, id, data, now);
    case PushUnreliable(id, data) => PushUnreliableBudgeted(s, id, data, now);
    case Process(order, time) => ProcessBudgeted(s, order, now, time);
    case Arrive(d) => ArriveBudgeted(s, d, now);
  }

  lemma {:induction false} RunBudgeted<R>(s: Server<R>, h: History, calls: seq<Call<R>>, now: int) returns (later: int)
    requires Budgeted(s, now) && Lawful(s, calls) && Clocked(calls, now)
    ensures Budgeted(Final(s, h, calls).0, later)
    decreases |calls|
  {
    later := now;
    if calls != [] {
      CallWF(s, calls[0]);
      CallBudgeted(s, calls[0], now);
      later := RunBudgeted(After(s, calls[0]).s, HistoryAfter(s, h, calls[0]), calls[1..], ClockAfter(calls[0], now));
    }
  }

  /** In every run under a clock that never goes back, every endpoint ever created has sent at most
      ceil(timeout period / attempt period) requests. */
  lemma RequestBound<R>(s: Server<R>, calls: seq<Call<R>>, now: int, r: R)
    requires NewServer(s) && Lawful(s, calls) && Clocked(calls, now)
    requires r in Final(s, NO_HISTORY, calls).0.heap
    ensures var t := Final(s, NO_HISTORY, calls).0; WithinBudget(t.heap[r], Count(t.outbox, t.heap[r].id))
  {
    var later := RunBudgeted(s, NO_HISTORY, calls, now);
    var c := Final(s, NO_HISTORY, calls).0.heap[r];
    var n := Count(Final(s, NO_HISTORY, calls).0.outbox, c.id);
    if n > 0 {
      SpacedIs(c.firstConnectAttemptTime, n - 1, c.connectionAttemptPeriod);
    }
  }
}
