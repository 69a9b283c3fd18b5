// Server B's side of the link, as the protocol sees it (src/UdcServer.cpp:153-299, 500-558): a reliable message or a
// RESET taken in from the peer is the receiver's step, and the payload handed to B's caller is what the protocol
// delivers; whatever else B takes in, sends or reports is nothing to the protocol. An answer is lost at once if the two
// servers have different signatures.

module LinkReceiver {
  import opened Bytes
  import opened Message
  import opened Client
  import opened ServerSpec
  import opened Protocol
  import opened Reception
  import opened Link
  import opened LinkReply

  /** Nothing happened to what B keeps about `peer`, nor to the relevant packets it holds from or for `peer`. */
  ghost predicate UnseenB<R>(s: Server<R>, t: Server<R>, peer: Address, peerSignature: Signature) {
    && t.signature == s.signature && EntryOf(t.reliableStates, peer) == EntryOf(s.reliableStates, peer)
    && Got(s.signature, true, t.inbox, peer) == Got(s.signature, true, s.inbox, peer)
    && Got(peerSignature, false, t.outbox, peer) == Got(peerSignature, false, s.outbox, peer)
  }

  lemma UnseenBMirrors<R>(w: World<R>, t: Server<R>, r: R, n: Net)
    requires Mirrors(w, r, n) && UnseenB(w.b, t, w.addressA, w.a.signature)
    ensures Mirrors(w.(b := t), r, n)
  {
  }

  lemma SendUnseenB<R>(s: Server<R>, t: Server<R>, to: Address, p: Packet, prefix: Signature, peer: Address,
          peerSignature: Signature)
    requires t.signature == s.signature && EntryOf(t.reliableStates, peer) == EntryOf(s.reliableStates, peer)
    requires t.inbox == s.inbox && t.outbox == s.outbox + [Datagram(to, Wire(prefix, p))]
    requires !Relevant(false, p) || to != peer
    ensures UnseenB(s, t, peer, peerSignature)
  {
    GotAppend(peerSignature, false, s.outbox, [Datagram(to, Wire(prefix, p))], peer);
    GotSent(peerSignature, false, prefix, to, p, peer);
  }

  // ---- polling: B never sends a reliable handshake of its own accord ----

  lemma PendingUnseenB<R>(s: Server<R>, peer: Address, peerSignature: Signature, time: int)
    requires WF(s)
    ensures UnseenB(s, UpdatePendingClients(s, time).s, peer, peerSignature)
  {
    if s.pending != [] {
      var c := s.heap[s.pending[0]];
      if !NeedsConnectionTimeoutEvent(c, time) && NeedsConnectionAttempt(c, time) {
        SendUnseenB(s, UpdatePendingClients(s, time).s, c.outgoing, ConnectionRequest(c.id), s.prefix, peer,
            peerSignature);
      }
    }
  }

  lemma PollAcknowledgesNothing(c: ClientState, time: int)
    ensures forall p <- Poll(c, time).1 :: !Relevant(false, p)
  {
  }

  lemma ClientUnseenB<R>(s: Server<R>, id: uint32, peer: Address, peerSignature: Signature, time: int)
    requires WF(s) && id in s.byId
    ensures UnseenB(s, UpdateClient(s, id, time).s, peer, peerSignature)
  {
    var c := s.heap[s.byId[id]];
    UpdateClientIsPoll(s, id, time);
    var packets := Poll(c, time).1;
    var to := Poll(c, time).0.outgoing;
    PollAcknowledgesNothing(c, time);
    GotAppend(peerSignature, false, s.outbox, Datagrams(s.prefix, to, packets), peer);
    GotDatagrams(peerSignature, false, s.prefix, to, packets, peer);
  }

  lemma {:induction false} LoopUnseenB<R>(s: Server<R>, order: seq<uint32>, peer: Address,
          peerSignature: Signature, time: int)
    requires WF(s) && forall id <- order :: id in s.byId
    ensures UnseenB(s, UpdateClients(s, order, time).s, peer, peerSignature)
    decreases |order|
  {
    if order != [] {
      ClientUnseenB(s, order[0], peer, peerSignature, time);
      UpdateClientWF(s, order[0], time);
      var o := UpdateClient(s, order[0], time);
      if o.event.None? {
        LoopUnseenB(o.s, order[1..], peer, peerSignature, time);
      }
    }
  }

  // ---- receiving ----

  lemma ForwardsFront<R>(w: World<R>, t: Server<R>)
    requires w.b.inbox != [] && t.inbox == w.b.inbox[1..] && t.outbox == w.b.outbox && t.signature == w.b.signature
    ensures Backwards(w.(b := t)) == Backwards(w)
    ensures Forwards(w) == Got(w.b.signature, true, [w.b.inbox[0]], w.addressA) + Forwards(w.(b := t))
  {
    var sig := w.b.signature;
    var front := Got(sig, true, [w.b.inbox[0]], w.addressA);
    var rest := Got(sig, true, t.inbox, w.addressA);
    var ab := Pick(sig, true, w.ab);
    var outbox := Got(sig, true, w.a.outbox, w.addressB);
    GotFront(sig, true, w.b.inbox, w.addressA);
    Associative(front, rest, ab);
    Associative(front, rest + ab, outbox);
  }

  lemma FrontForwardLost(n: Net, p: Packet, rest: seq<Packet>)
    requires Packets(n.fwd) == [p] + rest
    ensures n.fwd != [] && n.fwd[0].packet == p && Packets(n.fwd[1..]) == rest
    ensures Guarded(n, [Step.LoseForward(0)]) && Run(n, [Step.LoseForward(0)]) == n.(fwd := n.fwd[1..])
  {
    OneStep(n, LoseForward(0));
    PacketsTail(n.fwd);
    assert RemoveAt(n.fwd, 0) == n.fwd[1..];
    assert ([p] + rest)[1..] == rest;
  }

  /** The front datagram is taken and has no effect: a forward packet lost, if it was one. */
  lemma FrontDroppedB<R>(w: World<R>, r: R, n: Net, t: Server<R>) returns (steps: seq<Step>)
    requires Mirrors(w, r, n) && w.b.inbox != []
    requires t == w.b.(inbox := w.b.inbox[1..], prefix := t.prefix)
    ensures Follows(w.(b := t), r, n, steps, 0)
  {
    var d := w.b.inbox[0];
    var w' := w.(b := t);
    ForwardsFront(w, t);
    GotOne(w.b.signature, true, d, w.addressA);
    var p := Parse(w.b.signature, d.bytes);
    if d.address == w.addressA && p.Some? && Relevant(true, p.value) {
      steps := [LoseForward(0)];
      FrontForwardLost(n, p.value, Forwards(w'));
    } else {
      assert Forwards(w') == Forwards(w);
      steps := [];
      NoSteps(w', r, n);
    }
  }

  /** The reliable payloads an event hands to B's caller from `address`. */
  function Handed(event: Option<Event>, address: Address): seq<Msg> {
    match event
    case Some(ReceiveMessage(from, index, payload)) =>
      if from == address && index == RELIABLE_SIZE then [payload] else []
    case _ => []
  }

  /** What the receiver does on a forward packet, against the protocol's step. */
  lemma ReceiverAgrees<R>(t: Server<R>, from: Address, p: Packet, time: int, n: Net)
    requires WF(t) && Relevant(true, p) && n.fwd != [] && n.fwd[0].packet == p
        && n.entry == EntryOf(t.reliableStates, from)
    ensures var o := HandlePacket(t, from, p, time);
            var m := Forward(n);
            && m.entry == EntryOf(o.s.reliableStates, from) && m.delivered == n.delivered + Handed(o.event, from)
            && o.s.outbox == t.outbox + [Datagram(from, Wire(t.prefix, Answer(p)))]
            && o.s.inbox == t.inbox && o.s.signature == t.signature
            && m == n.(entry := m.entry, delivered := m.delivered, fwd := n.fwd[1..],
                       bwd := n.bwd + [InFlight(Answer(p), n.fwd[0].born)])
  {
  }

  /** B's answer joins the replies, if A has B's signature. */
  lemma AnswerAppends<R>(w: World<R>, t: Server<R>, p: Packet)
    requires t.inbox == w.b.inbox && t.signature == w.b.signature && Relevant(false, p)
    requires t.outbox == w.b.outbox + [Datagram(w.addressA, Wire(w.b.signature, p))]
    ensures Forwards(w.(b := t)) == Forwards(w)
    ensures Backwards(w.(b := t)) == Backwards(w) + if w.a.signature == w.b.signature then [p] else []
  {
    var sig := w.a.signature;
    GotAppend(sig, false, w.b.outbox, [Datagram(w.addressA, Wire(w.b.signature, p))], w.addressA);
    GotSent(sig, false, w.b.signature, w.addressA, p, w.addressA);
    Associative(Got(sig, false, w.a.inbox, w.addressB) + Pick(sig, false, w.ba),
                Got(sig, false, w.b.outbox, w.addressA), if sig == w.b.signature then [p] else []);
  }

  lemma LastReplyLost(n: Net, x: InFlight, bwd: seq<InFlight>)
    requires n.bwd == bwd + [x]
    ensures Guarded(n, [LoseReply(|bwd|)]) && Run(n, [LoseReply(|bwd|)]) == n.(bwd := bwd)
  {
    OneStep(n, LoseReply(|bwd|));
    assert RemoveAt(n.bwd, |bwd|) == bwd;
  }

  lemma FrontForward<R>(w: World<R>, r: R, n: Net, t: Server<R>, p: Packet)
    requires Mirrors(w, r, n) && w.b.inbox != []
    requires t == w.b.(inbox := w.b.inbox[1..], prefix := t.prefix)
    requires w.b.inbox[0].address == w.addressA && Parse(w.b.signature, w.b.inbox[0].bytes) == Some(p)
        && Relevant(true, p)
    ensures n.fwd != [] && n.fwd[0].packet == p && Packets(n.fwd[1..]) == Forwards(w.(b := t))
    ensures Backwards(w.(b := t)) == Backwards(w)
  {
    ForwardsFront(w, t);
    GotOne(w.b.signature, true, w.b.inbox[0], w.addressA);
    FrontForwardLost(n, p, Forwards(w.(b := t)));
  }

  /** A forward packet from the peer, taken from the front of the inbox, is the receiver's step; its answer is lost
      at once if the two servers have different signatures. */
  lemma DeliverMirrors<R>(w: World<R>, r: R, n: Net, t: Server<R>, p: Packet, time: int) returns (steps: seq<Step>)
    requires Mirrors(w, r, n) && w.b.inbox != [] && WF(t)
    requires t == w.b.(inbox := w.b.inbox[1..], prefix := w.b.signature)
    requires w.b.inbox[0].address == w.addressA && Parse(w.b.signature, w.b.inbox[0].bytes) == Some(p)
        && Relevant(true, p)
    ensures var o := HandlePacket(t, w.addressA, p, time);
            Follows(w.(b := o.s, delivered := w.delivered + Handed(o.event, w.addressA)), r, n, steps, 0)
  {
    var o := HandlePacket(t, w.addressA, p, time);
    var w2 := w.(b := o.s, delivered := w.delivered + Handed(o.event, w.addressA));
    FrontForward(w, r, n, t, p);
    ReceiverAgrees(t, w.addressA, p, time, n);
    AnswerAppends(w.(b := t), o.s, Answer(p));
    OneStep(n, DeliverForward);
    steps := [DeliverForward];
    var x := InFlight(Answer(p), n.fwd[0].born);
    PacketsAppend(n.bwd, x);
    if w.a.signature != w.b.signature {
      LastReplyLost(Forward(n), x, n.bwd);
      assert Mirrors(w2, r, Forward(n).(bwd := n.bwd));
      Chain(w2, r, n, steps, [LoseReply(|n.bwd|)], 0);
      steps := steps + [LoseReply(|n.bwd|)];
    }
  }

  /** Any other packet leaves B's side of the link alone and hands over no reliable payload of the peer. */
  lemma PacketUnseenB<R>(s: Server<R>, from: Address, p: Packet, time: int, peer: Address, peerSignature: Signature)
    requires WF(s) && !(from == peer && Relevant(true, p))
    ensures UnseenB(s, HandlePacket(s, from, p, time).s, peer, peerSignature)
    ensures Handed(HandlePacket(s, from, p, time).event, peer) == []
  {
    if p.ConnectionRequest? || p.Ping? || p.ReliableReset? || p.Reliable? {
      SendUnseenB(s, HandlePacket(s, from, p, time).s, from, Answer(p), s.prefix, peer, peerSignature);
    }
  }

  lemma PacketMirrorsB<R>(w: World<R>, r: R, n: Net, t: Server<R>, p: Packet, time: int) returns (steps: seq<Step>)
    requires Mirrors(w, r, n) && w.b.inbox != [] && WF(t) && t == w.b.(inbox := w.b.inbox[1..], prefix := w.b.signature)
    requires Parse(w.b.signature, w.b.inbox[0].bytes) == Some(p)
    ensures var o := HandlePacket(t, w.b.inbox[0].address, p, time);
            Follows(w.(b := o.s, delivered := w.delivered + Handed(o.event, w.addressA)), r, n, steps, 0)
  {
    var from := w.b.inbox[0].address;
    if from == w.addressA && Relevant(true, p) {
      steps := DeliverMirrors(w, r, n, t, p, time);
    } else {
      steps := FrontDroppedB(w, r, n, t);
      PacketUnseenB(t, from, p, time, w.addressA, w.a.signature);
      UnseenBMirrors(w.(b := t), HandlePacket(t, from, p, time).s, r, Run(n, steps));
      NothingHanded(w.delivered);
    }
  }

  lemma NothingHanded(delivered: seq<Msg>)
    ensures delivered + [] == delivered
  {
  }

  lemma TurnMirrorsB<R>(w: World<R>, r: R, n: Net, time: int) returns (steps: seq<Step>)
    requires WF(w.b) && Mirrors(w, r, n) && w.b.inbox != []
    ensures var o := Turn(w.b, time);
            Follows(w.(b := o.s, delivered := w.delivered + Handed(o.event, w.addressA)), r, n, steps, 0)
  {
    var d := w.b.inbox[0];
    var s1 := w.b.(inbox := w.b.inbox[1..]);
    HandleDatagramIs(s1, d, time);
    match Parse(w.b.signature, d.bytes)
    case None =>
      steps := FrontDroppedB(w, r, n, HandleDatagram(s1, d, time).s);
      NothingHanded(w.delivered);
    case Some(p) => steps := PacketMirrorsB(w, r, n, s1.(prefix := w.b.signature), p, time);
  }

  /** B's receive loop, with what its event hands over. */
  lemma {:induction false} DeliveriesMirror<R>(w: World<R>, r: R, n: Net, offered: nat, time: int)
    returns (steps: seq<Step>)
    requires WF(w.b) && Mirrors(w, r, n)
    ensures var o := ReceiveMessages(w.b, offered, time);
            Follows(w.(b := o.s, delivered := w.delivered + Handed(o.event, w.addressA)), r, n, steps, 0)
    decreases |w.b.inbox|
  {
    NothingHanded(w.delivered);
    match Receive(w.b.inbox, offered)
    case Nothing =>
      steps := [];
      NoSteps(w, r, n);
    case Failed(landed) =>
      steps := FrontDroppedB(w, r, n, ReceiveMessages(w.b, offered, time).s);
    case Received(d) =>
      ReceiveStep(w.b, offered, time);
      steps := TurnMirrorsB(w, r, n, time);
      var o := Turn(w.b, time);
      if o.event.None? {
        var more := DeliveriesMirror(w.(b := o.s), r, Run(n, steps), |d.bytes|, time);
        var p := ReceiveMessages(w.b, offered, time);
        Chain(w.(b := p.s, delivered := w.delivered + Handed(p.event, w.addressA)), r, n, steps, more, 0);
        steps := steps + more;
      }
  }

  /** One call of udcProcessEvents on B. */
  lemma ProcessMirrorsB<R>(w: World<R>, r: R, n: Net, order: seq<uint32>, time: int) returns (steps: seq<Step>)
    requires WF(w.b) && Mirrors(w, r, n) && forall id <- order :: id in w.b.byId
    ensures var o := ProcessEvents(w.b, order, time);
            Follows(w.(b := o.s, delivered := w.delivered + Handed(o.event, w.addressA)), r, n, steps, 0)
  {
    NothingHanded(w.delivered);
    var o1 := UpdatePendingClients(w.b, time);
    UpdatePendingClientsWF(w.b, time);
    PendingUnseenB(w.b, w.addressA, w.a.signature, time);
    UnseenBMirrors(w, o1.s, r, n);
    steps := [];
    if o1.event.None? {
      var w1 := w.(b := o1.s);
      var o2 := UpdateClients(o1.s, order, time);
      UpdateClientsWF(o1.s, order, time);
      LoopUnseenB(o1.s, order, w.addressA, w.a.signature, time);
      UnseenBMirrors(w1, o2.s, r, n);
      LoopHandsNothing(o1.s, order, time, w.addressA);
      if o2.event.None? {
        steps := DeliveriesMirror(w1.(b := o2.s), r, n, o2.s.bufferSize, time);
      }
    }
  }

  lemma {:induction false} LoopHandsNothing<R>(s: Server<R>, order: seq<uint32>, time: int, peer: Address)
    requires WF(s) && forall id <- order :: id in s.byId
    ensures Handed(UpdateClients(s, order, time).event, peer) == []
    decreases |order|
  {
    if order != [] {
      UpdateClientWF(s, order[0], time);
      UpdateClientIsPoll(s, order[0], time);
      var o := UpdateClient(s, order[0], time);
      if o.event.None? {
        LoopHandsNothing(o.s, order[1..], time, peer);
      }
    }
  }
}
