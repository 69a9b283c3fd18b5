// One connected client of a server, and what keeps its place in the indexes whatever else the server does
// (src/UdcServer.cpp:62-109, 441-451): its id finds it, packets from its address reach it, and no other client sends to
// its peer, until it is disconnected or another connection to that peer is completed.

module Connected {
  import opened Bytes
  import opened Client
  import opened ServerSpec
  import opened IndexTables
  import opened Ledger
  import opened Runs
  import opened Newcomers

  /** `r` is the client of its own id and of no other, and does not wait for a connection. */
  ghost predicate Indexed<R>(s: Server<R>, r: R) {
    && WF(s) && KnownIds(s) && r in s.heap && r !in s.pending
    && s.heap[r].id in s.byId && s.byId[s.heap[r].id] == r
    && forall id <- s.byId | id != s.heap[r].id :: s.byId[id] != r
  }

  /** Packets from `from` reach `r`, and packets from elsewhere do not. */
  ghost predicate Reached<R>(s: Server<R>, r: R, from: Address) {
    && WF(s) && r in s.heap && r !in s.pending
    && from in s.byAddress && s.byAddress[from] == r && forall a <- s.byAddress | a != from :: s.byAddress[a] != r
  }

  /** A pass over the id of `r` sends to `peer`, and passes over other ids do not. */
  ghost predicate Polled<R>(s: Server<R>, r: R, peer: Address) {
    && Indexed(s, r) && s.heap[r].outgoing == peer
    && forall id <- s.byId | id != s.heap[r].id :: s.heap[s.byId[id]].outgoing != peer
  }

  /** `r` is the one client connected with `peer`. */
  ghost predicate Paired<R>(s: Server<R>, r: R, peer: Address) {
    Reached(s, r, peer) && Polled(s, r, peer)
  }

  /** The connection completed, if any, is not one to `peer`. */
  ghost predicate NoRival<R>(o: Outcome<R>, peer: Address) {
    IsSuccess(o.event) ==>
      var id := o.event.value.id;
      id in o.s.byId && o.s.byId[id] in o.s.heap && o.s.heap[o.s.byId[id]].outgoing != peer
  }

  lemma ReachedStays<R>(s: Server<R>, t: Server<R>, r: R, from: Address)
    requires SameIndexes(s, t) && Reached(s, r, from)
    ensures Reached(t, r, from)
  {
  }

  lemma PolledStays<R>(s: Server<R>, t: Server<R>, r: R, peer: Address)
    requires SameIndexes(s, t) && Polled(s, r, peer)
    ensures Polled(t, r, peer) && t.heap[r].id == s.heap[r].id
  {
  }

  lemma IndexedStays<R>(s: Server<R>, t: Server<R>, r: R)
    requires SameIndexes(s, t) && Indexed(s, r)
    ensures Indexed(t, r) && t.heap[r].id == s.heap[r].id
  {
  }

  // ---- polls ----

  lemma SettledIndexed<R>(s: Server<R>, t: Server<R>, event: Option<Event>, r: R)
    requires Settles(s, t, event) && Indexed(s, r)
    ensures Indexed(t, r) && t.heap[r].id == s.heap[r].id
  {
    if IsSuccess(event) {
      var q := t.byId[event.value.id];
      var from :| Joins(s, t, q, from);
      assert q != r && s.heap[q].id != s.heap[r].id;
    }
  }

  /** No connection takes an address over. */
  lemma SettledReached<R>(s: Server<R>, t: Server<R>, event: Option<Event>, r: R, from: Address)
    requires Settles(s, t, event) && Reached(s, r, from)
    ensures Reached(t, r, from)
  {
    if IsSuccess(event) {
      var other :| Joins(s, t, t.byId[event.value.id], other);
    }
  }

  lemma SettledPolled<R>(s: Server<R>, o: Outcome<R>, r: R, peer: Address)
    requires Settles(s, o.s, o.event) && Polled(s, r, peer) && NoRival(o, peer)
    ensures Polled(o.s, r, peer)
  {
    SettledIndexed(s, o.s, o.event, r);
    if IsSuccess(o.event) {
      var from :| Joins(s, o.s, o.s.byId[o.event.value.id], from);
    }
  }

  // ---- calls ----

  /** Calls that touch no index. */
  lemma CallSame<R>(s: Server<R>, call: Call<R>)
    requires WF(s) && Legal(s, call) && (call.PushReliable? || call.PushUnreliable? || call.Arrive?)
    ensures SameIndexes(s, After(s, call).s)
  {
    CallWF(s, call);
    match call
    case PushReliable(id, data) =>
      if id in s.byId && SendReliable(s, id, data).1 {
        SetClientIndexes(s, s.byId[id], s.heap[s.byId[id]].(queue := s.heap[s.byId[id]].queue + [data]));
      }
    case PushUnreliable(id, data) => SendUnreliableOnlySends(s, id, data);
    case _ =>
  }

  lemma ConnectIndexed<R>(s: Server<R>, r: R, call: Call<R>)
    requires Indexed(s, r) && Legal(s, call) && call.Connect?
    ensures Indexed(After(s, call).s, r) && forall q <- s.heap :: After(s, call).s.heap[q] == s.heap[q]
  {
    CallWF(s, call);
  }

  lemma DropIndexed<R>(s: Server<R>, r: R, id: uint32)
    requires Indexed(s, r) && id != s.heap[r].id
    ensures Indexed(Disconnect(s, id), r) && Disconnect(s, id).heap == s.heap
  {
    DisconnectWF(s, id);
  }

  /** Every call but its disconnect leaves a connected client indexed. */
  lemma CallIndexed<R>(s: Server<R>, r: R, call: Call<R>)
    requires Indexed(s, r) && Legal(s, call) && (call.Drop? ==> call.id != s.heap[r].id)
    ensures Indexed(After(s, call).s, r) && After(s, call).s.heap[r].id == s.heap[r].id
  {
    match call
    case Process(order, time) =>
      PollSettles(s, order, time);
      SettledIndexed(s, After(s, call).s, After(s, call).event, r);
    case Connect(_, _, _, _, _) => ConnectIndexed(s, r, call);
    case Drop(id) => DropIndexed(s, r, id);
    case _ =>
      CallSame(s, call);
      IndexedStays(s, After(s, call).s, r);
  }

  lemma ConnectPaired<R>(s: Server<R>, r: R, call: Call<R>, peer: Address)
    requires Paired(s, r, peer) && Legal(s, call) && call.Connect?
    ensures Paired(After(s, call).s, r, peer)
  {
    ConnectIndexed(s, r, call);
  }

  lemma DropPaired<R>(s: Server<R>, r: R, id: uint32, peer: Address)
    requires Paired(s, r, peer) && id != s.heap[r].id
    ensures Paired(Disconnect(s, id), r, peer)
  {
    DropIndexed(s, r, id);
  }

  /** Every call but the disconnect of `r` keeps it paired with its peer, unless it completes another connection to the
      same peer. */
  lemma CallPaired<R>(s: Server<R>, r: R, call: Call<R>, peer: Address)
    requires Paired(s, r, peer) && Legal(s, call) && NoRival(After(s, call), peer)
    requires call.Drop? ==> call.id != s.heap[r].id
    ensures Paired(After(s, call).s, r, peer)
  {
    match call
    case Process(order, time) =>
      PollSettles(s, order, time);
      SettledReached(s, After(s, call).s, After(s, call).event, r, peer);
      SettledPolled(s, After(s, call), r, peer);
    case Connect(_, _, _, _, _) => ConnectPaired(s, r, call, peer);
    case Drop(id) => DropPaired(s, r, id, peer);
    case _ =>
      CallSame(s, call);
      ReachedStays(s, After(s, call).s, r, peer);
      PolledStays(s, After(s, call).s, r, peer);
  }

  // ---- how a pair comes about ----

  /** A waiting client that joins both indexes, under the address it sends to, where no connected client sends yet, is
      paired with it. */
  lemma JoinsPaired<R>(s: Server<R>, t: Server<R>, r: R, from: Address)
    requires PendingApart(s) && PendingApart(t) && KnownIds(s) && Joins(s, t, r, from)
    requires t.idCounter == s.idCounter && t.heap.Keys == s.heap.Keys
    requires forall q <- s.heap :: SameIdentity(s.heap[q], t.heap[q])
    requires forall id <- s.byId :: s.heap[s.byId[id]].outgoing != s.heap[r].outgoing
    ensures s.heap[r].outgoing in t.byAddress && t.byAddress[s.heap[r].outgoing] == r
            ==> Paired(t, r, s.heap[r].outgoing)
  {
    JoinsReached(s, t, r, from);
    JoinsIndexed(s, t, r, from);
  }

  lemma JoinsReached<R>(s: Server<R>, t: Server<R>, r: R, from: Address)
    requires PendingApart(s) && PendingApart(t) && Joins(s, t, r, from) && r in t.heap
    ensures Reached(t, r, from)
  {
    assert t.byAddress[from] == r;
  }

  lemma JoinsIndexed<R>(s: Server<R>, t: Server<R>, r: R, from: Address)
    requires PendingApart(s) && PendingApart(t) && KnownIds(s) && Joins(s, t, r, from)
    requires t.idCounter == s.idCounter && t.heap.Keys == s.heap.Keys
    requires forall q <- s.heap :: SameIdentity(s.heap[q], t.heap[q])
    ensures Indexed(t, r)
  {
    assert t.byId[s.heap[r].id] == r;
  }

  /** A handshake from the address the client sends to pairs it with that address, if no connected client sends there
      yet. */
  lemma AcceptedIsPaired<R>(s: Server<R>, from: Address, id: uint32, time: int)
    requires PendingApart(s) && KnownIds(s) && AcceptConnection(s, from, id, time).event.Some?
    requires from == s.heap[s.pending[0]].outgoing && forall i <- s.byId :: s.heap[s.byId[i]].outgoing != from
    ensures Paired(AcceptConnection(s, from, id, time).s, s.pending[0], from)
  {
    AcceptFresh(s, from, id, time);
    AcceptSettles(s, from, id, time);
    JoinsPaired(s, AcceptConnection(s, from, id, time).s, s.pending[0], from);
  }

  /** So does a poll that completes a connection, however it got to it. */
  lemma PollPairs<R>(s: Server<R>, order: seq<uint32>, time: int, peer: Address)
    requires PendingApart(s) && KnownIds(s) && (forall id <- order :: id in s.byId)
    requires IsSuccess(ProcessEvents(s, order, time).event)
    requires forall id <- s.byId :: s.heap[s.byId[id]].outgoing != peer
    ensures var o := ProcessEvents(s, order, time);
            var id := o.event.value.id;
            && id in o.s.byId && o.s.byId[id] in o.s.heap
            && (o.s.heap[o.s.byId[id]].outgoing == peer && peer in o.s.byAddress && o.s.byAddress[peer] == o.s.byId[id]
                ==> Paired(o.s, o.s.byId[id], peer))
  {
    var o := ProcessEvents(s, order, time);
    PollFresh(s, order, time);
    PollSettles(s, order, time);
    var r := o.s.byId[o.event.value.id];
    var from :| Joins(s, o.s, r, from);
    if o.s.heap[r].outgoing == peer {
      JoinsPaired(s, o.s, r, from);
    }
  }

  /** `r` was connected at `time`, and nothing has been sent to it or heard from it since. */
  ghost predicate JustConnected<R>(s: Server<R>, r: R, time: int) {
    Indexed(s, r) && Starts(s.heap[r], time)
  }

  /** After every run of a new server, that is what a poll that reports SUCCESS leaves, wherever the handshake came
      from. */
  lemma SuccessIsJustConnected<R>(s: Server<R>, calls: seq<Call<R>>, order: seq<uint32>, time: int)
    requires NewServer(s) && Lawful(s, calls) && Visits(order, Final(s, NO_HISTORY, calls).0.byId.Keys)
    ensures var o := ProcessEvents(Final(s, NO_HISTORY, calls).0, order, time);
            IsSuccess(o.event) ==>
              && o.event.value.id in o.s.byId && JustConnected(o.s, o.s.byId[o.event.value.id], time)
              && o.s.heap[o.s.byId[o.event.value.id]].id == o.event.value.id
  {
    var t := Final(s, NO_HISTORY, calls).0;
    var o := ProcessEvents(t, order, time);
    RunApart(s, NO_HISTORY, calls);
    IdsAlways(s, calls);
    PollFresh(t, order, time);
    PollSettles(t, order, time);
    if IsSuccess(o.event) {
      var r := o.s.byId[o.event.value.id];
      var from :| Joins(t, o.s, r, from);
      JoinsIndexed(t, o.s, r, from);
    }
  }
}
