// Server A's passes over its clients, as the protocol sees them (src/UdcServer.cpp:301-410): passes over clients other
// than the observed one, and the pending stage, are nothing to the protocol; the pass over the observed client is the
// sender's poll, and begins a reset round exactly when that poll fires. Its packet is lost at once if the signature in
// front of the buffer is not the peer's.

module LinkSender {
  import opened Bytes
  import opened Message
  import opened Client
  import opened ServerSpec
  import opened Protocol
  import opened Repetition
  import opened IndexTables
  import opened Connected
  import opened Link

  // ---- polling ----

  lemma UpdatePendingUnseen<R>(s: Server<R>, r: R, peer: Address, peerSignature: Signature, time: int)
    requires WF(s) && r in s.heap
    ensures UnseenA(s, UpdatePendingClients(s, time).s, r, peer, peerSignature)
  {
    if s.pending != [] {
      var c := s.heap[s.pending[0]];
      var t := UpdatePendingClients(s, time).s;
      if !NeedsConnectionTimeoutEvent(c, time) && NeedsConnectionAttempt(c, time) {
        SendUnseenA(s, t, r, c.outgoing, ConnectionRequest(c.id), s.prefix, peer, peerSignature);
      }
    }
  }

  /** A pass over another client sends nothing to `peer`. */
  lemma UpdateOtherUnseen<R>(s: Server<R>, r: R, id: uint32, peer: Address, peerSignature: Signature, time: int)
    requires WF(s) && r in s.heap && id in s.byId && s.byId[id] != r && s.heap[s.byId[id]].outgoing != peer
    ensures UnseenA(s, UpdateClient(s, id, time).s, r, peer, peerSignature)
  {
    var c := s.heap[s.byId[id]];
    UpdateClientIsPoll(s, id, time);
    Client.PollKeeps(c, time);
    var sent := Datagrams(s.prefix, c.outgoing, Poll(c, time).1);
    GotAppend(peerSignature, true, s.outbox, sent, peer);
    ElsewhereUngot(peerSignature, true, sent, peer);
  }

  lemma {:induction false} ElsewhereUngot(signature: Signature, forward: bool, ds: seq<Datagram>, address: Address)
    requires forall i | 0 <= i < |ds| :: ds[i].address != address
    ensures At(ds, address) == [] && Got(signature, forward, ds, address) == []
  {
    if ds != [] {
      ElsewhereUngot(signature, forward, ds[1..], address);
    }
  }

  /** A pass over a client puts its reliable packet on the way, if the resident signature is the peer's. */
  lemma GotPoll(c: ClientState, time: int, prefix: Signature, signature: Signature)
    ensures var out := PollReliable(c, time).1;
            Got(signature, true, Datagrams(prefix, c.outgoing, Poll(c, time).1), c.outgoing)
            == if out.Some? && prefix == signature then [out.value] else []
  {
    var (d, out) := PollReliable(c, time);
    var first := if out.Some? then [out.value] else [];
    var pings := if NeedsPing(d, time) then [Packet.Ping(Low32(time))] else [];
    assert Poll(c, time).1 == first + pings;
    DatagramsAppend(prefix, c.outgoing, first, pings);
    GotAppend(signature, true, Datagrams(prefix, c.outgoing, first), Datagrams(prefix, c.outgoing, pings), c.outgoing);
    GotDatagrams(signature, true, prefix, c.outgoing, pings, c.outgoing);
    GotFirst(out, prefix, c.outgoing, signature);
  }

  lemma GotFirst(out: Option<Packet>, prefix: Signature, to: Address, signature: Signature)
    requires out.Some? ==> Relevant(true, out.value)
    ensures Got(signature, true, Datagrams(prefix, to, if out.Some? then [out.value] else []), to)
            == if out.Some? && prefix == signature then [out.value] else []
  {
    OneDatagram(prefix, to, out);
    if out.Some? {
      GotSent(signature, true, prefix, to, out.value, to);
    }
  }

  lemma PollAgrees(c: ClientState, d: ClientState, time: int)
    requires SameReliable(c, d)
    ensures PollReliable(c, time).1 == PollReliable(d, time).1
    ensures SameReliable(PollReliable(c, time).0, PollReliable(d, time).0)
    ensures SameReliable(Poll(c, time).0, PollReliable(d, time).0)
  {
    Client.PollKeeps(c, time);
  }

  lemma PollAppends<R>(w: World<R>, r: R, id: uint32, time: int)
    requires WF(w.a) && id in w.a.byId && w.a.byId[id] == r && w.a.heap[r].outgoing == w.addressB
    ensures var w' := w.(a := UpdateClient(w.a, id, time).s);
            var (c, out) := PollReliable(w.a.heap[r], time);
            && r in w'.a.heap && SameReliable(w'.a.heap[r], c) && Backwards(w') == Backwards(w)
            && Forwards(w') == Forwards(w) + if out.Some? && w.a.prefix == w.b.signature then [out.value] else []
  {
    var s := w.a;
    var c := s.heap[r];
    UpdateClientIsPoll(s, id, time);
    Client.PollKeeps(c, time);
    var sent := Datagrams(s.prefix, c.outgoing, Poll(c, time).1);
    GotPoll(c, time, s.prefix, w.b.signature);
    GotAppend(w.b.signature, true, s.outbox, sent, w.addressB);
    Associative(Got(w.b.signature, true, w.b.inbox, w.addressA) + Pick(w.b.signature, true, w.ab),
                Got(w.b.signature, true, s.outbox, w.addressB), Got(w.b.signature, true, sent, w.addressB));
  }

  /** A pass over `r` is the sender's poll, its packet lost at once if it went out under a damaged signature. */
  lemma PollMirrors<R>(w: World<R>, r: R, n: Net, id: uint32, time: int) returns (steps: seq<Step>)
    requires WF(w.a) && id in w.a.byId && w.a.byId[id] == r && w.a.heap[r].outgoing == w.addressB
    requires Mirrors(w, r, n) && n.now == time && (Fires(n, PollSender) ==> MayFire(n))
    ensures Follows(w.(a := UpdateClient(w.a, id, time).s), r, n, steps, if Fires(n, PollSender) then 1 else 0)
  {
    var w' := w.(a := UpdateClient(w.a, id, time).s);
    var c := w.a.heap[r];
    var out := PollReliable(c, time).1;
    var n1 := Apply(n, PollSender);
    PollAppends(w, r, id, time);
    PollAgrees(c, n.sender, time);
    OneStep(n, PollSender);
    OneRisk(n, PollSender);
    steps := [PollSender];
    if out.Some? {
      PacketsAppend(n.fwd, InFlight(out.value, time));
      if w.a.prefix != w.b.signature {
        LastLost(n1, InFlight(out.value, time), n.fwd);
        Chain(w', r, n, steps, [LoseForward(|n.fwd|)], if Fires(n, PollSender) then 1 else 0);
        steps := steps + [LoseForward(|n.fwd|)];
      }
    }
  }

  lemma LastLost(n: Net, x: InFlight, fwd: seq<InFlight>)
    requires n.fwd == fwd + [x]
    ensures Guarded(n, [LoseForward(|fwd|)]) && Run(n, [LoseForward(|fwd|)]) == n.(fwd := fwd)
  {
    OneStep(n, LoseForward(|fwd|));
    assert RemoveAt(n.fwd, |fwd|) == fwd;
  }

  /** The passes over clients other than `r`. */
  lemma {:induction false} OthersUnseen<R>(s: Server<R>, r: R, order: seq<uint32>, peer: Address,
          peerSignature: Signature, time: int)
    requires Polled(s, r, peer) && (forall id <- order :: id in s.byId) && s.heap[r].id !in order
    ensures UnseenA(s, UpdateClients(s, order, time).s, r, peer, peerSignature)
    decreases |order|
  {
    if order != [] {
      var o := UpdateClient(s, order[0], time);
      UpdateOtherUnseen(s, r, order[0], peer, peerSignature, time);
      UpdateClientIndexes(s, order[0], time);
      PolledStays(s, o.s, r, peer);
      if o.event.None? {
        OthersUnseen(o.s, r, order[1..], peer, peerSignature, time);
        UnseenATwice(s, o.s, UpdateClients(o.s, order[1..], time).s, r, peer, peerSignature);
      }
    }
  }

  /** The passes begin a reset round for `r`: its turn comes, and finds the timer overdue. */
  ghost predicate RoundBegins<R>(s: Server<R>, r: R, order: seq<uint32>, time: int)
    requires WF(s) && forall id <- order :: id in s.byId
  {
    var t := UpdateClients(s, order, time).s;
    r in s.heap && r in t.heap && s.heap[r].reliableState != -1 && t.heap[r].reliableState == -1
  }

  /** The turn of `r` itself. */
  lemma OwnPoll<R>(s: Server<R>, r: R, n: Net, peer: Address, time: int)
    requires Polled(s, r, peer) && SameReliable(s.heap[r], n.sender) && n.now == time
    ensures var t := UpdateClient(s, s.heap[r].id, time).s;
            && Polled(t, r, peer) && t.byId == s.byId && t.heap[r].id == s.heap[r].id
            && SameReliable(t.heap[r], PollReliable(n.sender, time).0)
  {
    var id := s.heap[r].id;
    UpdateClientIsPoll(s, id, time);
    PollAgrees(s.heap[r], n.sender, time);
    UpdateClientIndexes(s, id, time);
    PolledStays(s, UpdateClient(s, id, time).s, r, peer);
  }

  /** From the turn of `r` on, the rest of the loop leaves its reliable state to that turn. */
  lemma OwnLoop<R>(s: Server<R>, r: R, n: Net, order: seq<uint32>, peer: Address, peerSignature: Signature, time: int)
    requires Polled(s, r, peer) && SameReliable(s.heap[r], n.sender) && n.now == time
    requires order != [] && order[0] == s.heap[r].id && order[0] !in order[1..] && (forall id <- order :: id in s.byId)
    ensures UnseenA(UpdateClient(s, order[0], time).s, UpdateClients(s, order, time).s, r, peer, peerSignature)
    ensures SameReliable(UpdateClients(s, order, time).s.heap[r], PollReliable(n.sender, time).0)
  {
    OwnPoll(s, r, n, peer, time);
    var o := UpdateClient(s, order[0], time);
    if o.event.None? {
      OthersUnseen(o.s, r, order[1..], peer, peerSignature, time);
    }
  }

  /** So a round begins for `r` exactly if its own poll fires. */
  lemma OwnRound<R>(s: Server<R>, r: R, n: Net, order: seq<uint32>, peer: Address, time: int)
    requires Polled(s, r, peer) && SameReliable(s.heap[r], n.sender) && n.now == time
    requires order != [] && order[0] == s.heap[r].id && order[0] !in order[1..] && (forall id <- order :: id in s.byId)
    ensures RoundBegins(s, r, order, time) <==> Fires(n, PollSender)
  {
    OwnLoop(s, r, n, order, peer, s.signature, time);
  }

  lemma OwnTurnMirrors<R>(w: World<R>, r: R, n: Net, order: seq<uint32>, time: int) returns (steps: seq<Step>)
    requires Polled(w.a, r, w.addressB) && Mirrors(w, r, n) && n.now == time
    requires order != [] && order[0] == w.a.heap[r].id && order[0] !in order[1..]
        && (forall id <- order :: id in w.a.byId)
    requires Fires(n, PollSender) ==> MayFire(n)
    ensures Follows(w.(a := UpdateClients(w.a, order, time).s), r, n, steps, if Fires(n, PollSender) then 1 else 0)
  {
    steps := PollMirrors(w, r, n, order[0], time);
    OwnLoop(w.a, r, n, order, w.addressB, w.b.signature, time);
    var w1 := w.(a := UpdateClient(w.a, order[0], time).s);
    UnseenAMirrors(w1, UpdateClients(w.a, order, time).s, r, Run(n, steps));
  }

  lemma DistinctTail(order: seq<uint32>)
    requires order != [] && Distinct(order)
    ensures order[0] !in order[1..] && Distinct(order[1..])
  {
  }

  /** A turn of another client neither begins a round nor hides one. */
  lemma OtherRound<R>(s: Server<R>, r: R, order: seq<uint32>, peer: Address, time: int)
    requires Polled(s, r, peer) && order != [] && order[0] != s.heap[r].id && (forall id <- order :: id in s.byId)
    ensures var o := UpdateClient(s, order[0], time);
            WF(o.s) && o.s.byId == s.byId
            && (RoundBegins(s, r, order, time) <==> o.event.None? && RoundBegins(o.s, r, order[1..], time))
  {
    UpdateClientWF(s, order[0], time);
    UpdateOtherUnseen(s, r, order[0], peer, s.signature, time);
  }

  /** The loop over the clients, in whatever order the hash map gives: `r` is polled at most once. */
  lemma {:induction false} LoopMirrors<R>(w: World<R>, r: R, n: Net, order: seq<uint32>, time: int)
    returns (steps: seq<Step>)
    requires Polled(w.a, r, w.addressB) && Mirrors(w, r, n) && n.now == time
    requires (forall id <- order :: id in w.a.byId) && Distinct(order)
    requires RoundBegins(w.a, r, order, time) ==> MayFire(n)
    ensures Follows(w.(a := UpdateClients(w.a, order, time).s), r, n, steps,
                    if RoundBegins(w.a, r, order, time) then 1 else 0)
    decreases |order|
  {
    steps := [];
    if order == [] {
      NoSteps(w, r, n);
    } else {
      DistinctTail(order);
      if order[0] == w.a.heap[r].id {
        OwnRound(w.a, r, n, order, w.addressB, time);
        steps := OwnTurnMirrors(w, r, n, order, time);
      } else {
        OtherTurnMirrors(w, r, n, order[0], time);
        OtherRound(w.a, r, order, w.addressB, time);
        var o := UpdateClient(w.a, order[0], time);
        if o.event.None? {
          steps := LoopMirrors(w.(a := o.s), r, n, order[1..], time);
        } else {
          NoSteps(w.(a := o.s), r, n);
        }
      }
    }
  }

  lemma OtherTurnMirrors<R>(w: World<R>, r: R, n: Net, id: uint32, time: int)
    requires Polled(w.a, r, w.addressB) && Mirrors(w, r, n) && id in w.a.byId && id != w.a.heap[r].id
    ensures var t := UpdateClient(w.a, id, time).s;
            Mirrors(w.(a := t), r, n) && Polled(t, r, w.addressB) && t.byId == w.a.byId
  {
    var t := UpdateClient(w.a, id, time).s;
    UpdateOtherUnseen(w.a, r, id, w.addressB, w.b.signature, time);
    UnseenAMirrors(w, t, r, n);
    UpdateClientIndexes(w.a, id, time);
    PolledStays(w.a, t, r, w.addressB);
  }
}
