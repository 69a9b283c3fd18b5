// Server A's receive loop, and its API calls, as the protocol sees them (src/UdcServer.cpp:111-299, 412-607): a
// reliable handshake taken in from the peer is the sender's reply step, an accepted reliable send on the observed
// endpoint is a submission, and every other packet and call is nothing to the protocol. A whole call of
// udcProcessEvents is then the passes of LinkSender followed by a sequence of replies delivered or lost.

module LinkReply {
  import opened Bytes
  import opened Message
  import opened Client
  import opened ServerSpec
  import opened Protocol
  import opened Reception
  import opened IndexTables
  import opened Runs
  import opened Connected
  import opened Link
  import opened LinkSender

  /** Taking the front datagram out of A's inbox takes its packet, if it is relevant, off the front of the replies. */
  lemma BackwardsFront<R>(w: World<R>, t: Server<R>)
    requires w.a.inbox != [] && t.inbox == w.a.inbox[1..] && t.outbox == w.a.outbox && t.signature == w.a.signature
    ensures Forwards(w.(a := t)) == Forwards(w)
    ensures Backwards(w) == Got(w.a.signature, false, [w.a.inbox[0]], w.addressB) + Backwards(w.(a := t))
  {
    var sig := w.a.signature;
    var front := Got(sig, false, [w.a.inbox[0]], w.addressB);
    var rest := Got(sig, false, t.inbox, w.addressB);
    var ba := Pick(sig, false, w.ba);
    var outbox := Got(sig, false, w.b.outbox, w.addressA);
    GotFront(sig, false, w.a.inbox, w.addressB);
    Associative(front, rest, ba);
    Associative(front, rest + ba, outbox);
  }

  /** The front datagram is taken and has no effect: a reply lost, if it was one. */
  lemma FrontDropped<R>(w: World<R>, r: R, n: Net, t: Server<R>) returns (steps: seq<Step>)
    requires Mirrors(w, r, n) && w.a.inbox != []
    requires t == w.a.(inbox := w.a.inbox[1..], prefix := t.prefix)
    ensures Follows(w.(a := t), r, n, steps, 0)
  {
    var d := w.a.inbox[0];
    var w' := w.(a := t);
    BackwardsFront(w, t);
    GotOne(w.a.signature, false, d, w.addressB);
    var p := Parse(w.a.signature, d.bytes);
    if d.address == w.addressB && p.Some? && Relevant(false, p.value) {
      steps := [LoseReply(0)];
      FrontLost(n, p.value, Backwards(w'));
    } else {
      assert Backwards(w') == Backwards(w);
      steps := [];
      NoSteps(w', r, n);
    }
  }

  lemma FrontLost(n: Net, p: Packet, rest: seq<Packet>)
    requires Packets(n.bwd) == [p] + rest
    ensures n.bwd != [] && n.bwd[0].packet == p && Packets(n.bwd[1..]) == rest
    ensures Guarded(n, [LoseReply(0)]) && Run(n, [LoseReply(0)]) == n.(bwd := n.bwd[1..])
  {
    OneStep(n, LoseReply(0));
    PacketsTail(n.bwd);
    assert RemoveAt(n.bwd, 0) == n.bwd[1..];
    assert ([p] + rest)[1..] == rest;
  }

  lemma FrontReply<R>(w: World<R>, r: R, n: Net, t: Server<R>, p: Packet)
    requires Mirrors(w, r, n) && w.a.inbox != []
    requires t == w.a.(inbox := w.a.inbox[1..], prefix := t.prefix)
    requires w.a.inbox[0].address == w.addressB && Parse(w.a.signature, w.a.inbox[0].bytes) == Some(p)
        && Relevant(false, p)
    ensures n.bwd != [] && n.bwd[0].packet == p && Packets(n.bwd[1..]) == Backwards(w.(a := t))
    ensures Forwards(w.(a := t)) == Forwards(w)
  {
    BackwardsFront(w, t);
    GotOne(w.a.signature, false, w.a.inbox[0], w.addressB);
    FrontLost(n, p, Backwards(w.(a := t)));
  }

  /** A reliable handshake from the peer, taken from the front of the inbox, is the sender's step. */
  lemma HandshakeMirrors<R>(w: World<R>, r: R, n: Net, t: Server<R>, p: Packet, time: int)
    requires Mirrors(w, r, n) && n.now == time && w.a.inbox != [] && WF(t)
    requires t == w.a.(inbox := w.a.inbox[1..], prefix := t.prefix)
    requires w.a.inbox[0].address == w.addressB && Parse(w.a.signature, w.a.inbox[0].bytes) == Some(p)
        && Relevant(false, p)
    requires w.addressB in t.byAddress && t.byAddress[w.addressB] == r
    ensures Follows(w.(a := AcceptReliableHandshake(t, w.addressB, AckedState(p), p.stamp, time).s), r, n,
        [DeliverReply], 0)
  {
    FrontReply(w, r, n, t, p);
    HandshakeAgrees(t, r, w.addressB, n.sender, AckedState(p), p.stamp, time);
    SameTraffic(w.(a := t), AcceptReliableHandshake(t, w.addressB, AckedState(p), p.stamp, time).s);
    ReplyMirrors(w, r, n, AcceptReliableHandshake(t, w.addressB, AckedState(p), p.stamp, time).s);
  }

  lemma ReplyMirrors<R>(w: World<R>, r: R, n: Net, u: Server<R>)
    requires Mirrors(w, r, n) && n.bwd != [] && Relevant(false, n.bwd[0].packet)
    requires var p := n.bwd[0].packet;
             r in u.heap && SameReliable(u.heap[r], ReceiveReliableHandshake(n.sender, AckedState(p), p.stamp, n.now))
    requires Packets(n.bwd[1..]) == Backwards(w.(a := u)) && Forwards(w.(a := u)) == Forwards(w)
    ensures Follows(w.(a := u), r, n, [DeliverReply], 0)
  {
    OneStep(n, DeliverReply);
  }

  lemma HandshakeAgrees<R>(t: Server<R>, r: R, from: Address, sender: ClientState, state: ReliableState,
          stamp: uint32, time: int)
    requires WF(t) && from in t.byAddress && t.byAddress[from] == r && SameReliable(t.heap[r], sender)
    ensures var u := AcceptReliableHandshake(t, from, state, stamp, time).s;
            && r in u.heap && SameReliable(u.heap[r], ReceiveReliableHandshake(sender, state, stamp, time))
            && u.inbox == t.inbox && u.outbox == t.outbox && u.signature == t.signature
  {
  }

  lemma SameTraffic<R>(w: World<R>, t: Server<R>)
    requires t.inbox == w.a.inbox && t.outbox == w.a.outbox && t.signature == w.a.signature
    ensures Forwards(w.(a := t)) == Forwards(w) && Backwards(w.(a := t)) == Backwards(w)
  {
  }

  /** Any other packet is outside the protocol for `r`. */
  lemma PacketUnseen<R>(s: Server<R>, r: R, from: Address, p: Packet, time: int, peer: Address,
          peerSignature: Signature)
    requires Reached(s, r, peer) && !(from == peer && Relevant(false, p))
    ensures UnseenA(s, HandlePacket(s, from, p, time).s, r, peer, peerSignature)
  {
    match p
    case ConnectionHandshake(id) => ConnectionUnseen(s, r, from, id, time, peer, peerSignature);
    case HandshakeReset(stamp) => HandshakeUnseen(s, r, from, -1, stamp, time, peer, peerSignature);
    case Handshake(bit, stamp) => HandshakeUnseen(s, r, from, bit, stamp, time, peer, peerSignature);
    case Pong(stamp) => PongUnseen(s, r, from, stamp, time, peer, peerSignature);
    case _ => AnswerUnseen(s, r, from, p, time, peer, peerSignature);
  }

  /** Whatever A answers as a receiver. */
  lemma AnswerUnseen<R>(s: Server<R>, r: R, from: Address, p: Packet, time: int, peer: Address,
          peerSignature: Signature)
    requires WF(s) && r in s.heap
    requires p.ConnectionRequest? || p.Ping? || p.Unreliable? || p.ReliableReset? || p.Reliable?
    ensures UnseenA(s, HandlePacket(s, from, p, time).s, r, peer, peerSignature)
  {
    if !p.Unreliable? {
      var answer := Answer(p);
      SendUnseenA(s, HandlePacket(s, from, p, time).s, r, from, answer, s.prefix, peer, peerSignature);
    }
  }

  function Answer(p: Packet): Packet
    requires p.ConnectionRequest? || p.Ping? || p.ReliableReset? || p.Reliable?
  {
    match p
    case ConnectionRequest(id) => ConnectionHandshake(id)
    case Ping(stamp) => Pong(stamp)
    case ReliableReset(stamp) => HandshakeReset(stamp)
    case Reliable(bit, stamp, _) => Handshake(bit, stamp)
  }

  lemma ConnectionUnseen<R>(s: Server<R>, r: R, from: Address, id: uint32, time: int, peer: Address,
          peerSignature: Signature)
    requires WF(s) && r in s.heap
    ensures UnseenA(s, AcceptConnection(s, from, id, time).s, r, peer, peerSignature)
  {
  }

  lemma PongUnseen<R>(s: Server<R>, r: R, from: Address, stamp: uint32, time: int, peer: Address,
          peerSignature: Signature)
    requires WF(s) && r in s.heap
    ensures UnseenA(s, AcceptPong(s, from, stamp, time).s, r, peer, peerSignature)
  {
  }

  lemma HandshakeUnseen<R>(s: Server<R>, r: R, from: Address, state: ReliableState, stamp: uint32, time: int,
          peer: Address, peerSignature: Signature)
    requires WF(s) && r in s.heap && (from in s.byAddress ==> s.byAddress[from] != r)
    ensures UnseenA(s, AcceptReliableHandshake(s, from, state, stamp, time).s, r, peer, peerSignature)
  {
  }

  /** Receiving keeps `r` reached: a new connection never takes an address over. */
  lemma PacketReached<R>(s: Server<R>, r: R, from: Address, p: Packet, time: int, peer: Address)
    requires Reached(s, r, peer)
    ensures Reached(HandlePacket(s, from, p, time).s, r, peer)
  {
    PacketSettles(s, from, p, time);
    SettledReached(s, HandlePacket(s, from, p, time).s, HandlePacket(s, from, p, time).event, r, peer);
  }

  lemma DatagramReached<R>(s: Server<R>, r: R, d: Datagram, peer: Address, time: int)
    requires Reached(s, r, peer)
    ensures Reached(HandleDatagram(s, d, time).s, r, peer) && HandleDatagram(s, d, time).s.inbox == s.inbox
  {
    HandleDatagramIs(s, d, time);
    HandleDatagramWF(s, d, time);
    match Parse(s.signature, d.bytes)
    case Some(p) => PacketReached(s.(prefix := s.signature), r, d.address, p, time, peer);
    case None =>
  }

  lemma RelevantIsHandshake<R>(s: Server<R>, from: Address, p: Packet, time: int)
    requires WF(s) && Relevant(false, p)
    ensures HandlePacket(s, from, p, time) == AcceptReliableHandshake(s, from, AckedState(p), p.stamp, time)
  {
  }

  /** One turn of A's receive loop. */
  lemma TurnMirrors<R>(w: World<R>, r: R, n: Net, time: int) returns (steps: seq<Step>)
    requires Reached(w.a, r, w.addressB) && Mirrors(w, r, n) && n.now == time && w.a.inbox != []
    ensures var t := Turn(w.a, time).s; Follows(w.(a := t), r, n, steps, 0) && Reached(t, r, w.addressB)
  {
    var d := w.a.inbox[0];
    var s1 := w.a.(inbox := w.a.inbox[1..]);
    HandleDatagramIs(s1, d, time);
    DatagramReached(s1, r, d, w.addressB, time);
    match Parse(w.a.signature, d.bytes)
    case None => steps := FrontDropped(w, r, n, HandleDatagram(s1, d, time).s);
    case Some(p) => steps := PacketMirrors(w, r, n, s1.(prefix := w.a.signature), p, time);
  }

  lemma PacketMirrors<R>(w: World<R>, r: R, n: Net, t: Server<R>, p: Packet, time: int) returns (steps: seq<Step>)
    requires Mirrors(w, r, n) && n.now == time && w.a.inbox != []
        && t == w.a.(inbox := w.a.inbox[1..], prefix := t.prefix)
    requires Reached(t, r, w.addressB) && Parse(w.a.signature, w.a.inbox[0].bytes) == Some(p)
    ensures Follows(w.(a := HandlePacket(t, w.a.inbox[0].address, p, time).s), r, n, steps, 0)
  {
    if w.a.inbox[0].address == w.addressB && Relevant(false, p) {
      RelevantIsHandshake(t, w.addressB, p, time);
      HandshakeMirrors(w, r, n, t, p, time);
      steps := [DeliverReply];
    } else {
      steps := FrontUnseen(w, r, n, t, w.a.inbox[0].address, p, time);
    }
  }

  lemma FrontUnseen<R>(w: World<R>, r: R, n: Net, t: Server<R>, from: Address, p: Packet, time: int)
    returns (steps: seq<Step>)
    requires Mirrors(w, r, n) && w.a.inbox != [] && t == w.a.(inbox := w.a.inbox[1..], prefix := t.prefix)
    requires Reached(t, r, w.addressB) && !(from == w.addressB && Relevant(false, p))
    ensures Follows(w.(a := HandlePacket(t, from, p, time).s), r, n, steps, 0)
  {
    steps := FrontDropped(w, r, n, t);
    PacketUnseen(t, r, from, p, time, w.addressB, w.b.signature);
    UnseenAMirrors(w.(a := t), HandlePacket(t, from, p, time).s, r, Run(n, steps));
  }

  /** A reception that ends the loop. */
  lemma StopMirrors<R>(w: World<R>, r: R, n: Net, offered: nat, time: int) returns (steps: seq<Step>)
    requires WF(w.a) && Mirrors(w, r, n) && !Receive(w.a.inbox, offered).Received?
    ensures Follows(w.(a := ReceiveMessages(w.a, offered, time).s), r, n, steps, 0)
  {
    if w.a.inbox == [] {
      steps := [];
      NoSteps(w, r, n);
    } else {
      steps := FrontDropped(w, r, n, ReceiveMessages(w.a, offered, time).s);
    }
  }

  /** A's receive loop. */
  lemma {:induction false} RepliesMirror<R>(w: World<R>, r: R, n: Net, offered: nat, time: int)
    returns (steps: seq<Step>)
    requires Reached(w.a, r, w.addressB) && Mirrors(w, r, n) && n.now == time
    ensures Follows(w.(a := ReceiveMessages(w.a, offered, time).s), r, n, steps, 0)
    decreases |w.a.inbox|
  {
    if !Receive(w.a.inbox, offered).Received? {
      steps := StopMirrors(w, r, n, offered, time);
    } else {
      ReceiveStep(w.a, offered, time);
      steps := TurnMirrors(w, r, n, time);
      var o := Turn(w.a, time);
      if o.event.None? {
        var w1 := w.(a := o.s);
        var more := RepliesMirror(w1, r, Run(n, steps), |w.a.inbox[0].bytes|, time);
        Chain(w.(a := ReceiveMessages(w.a, offered, time).s), r, n, steps, more, 0);
        steps := steps + more;
      }
    }
  }

  // ---- a whole call of udcProcessEvents on A ----

  /** What a call of udcProcessEvents does once the pending stage reported nothing. */
  function Serve<R>(s: Server<R>, order: seq<uint32>, time: int): Outcome<R>
    requires WF(s) && forall id <- order :: id in s.byId
  {
    var o := UpdateClients(s, order, time);
    if o.event.Some? then o
    else
      UpdateClientsWF(s, order, time);
      ReceiveMessages(o.s, o.s.bufferSize, time)
  }

  lemma ServeMirrors<R>(w: World<R>, r: R, n: Net, order: seq<uint32>, time: int) returns (steps: seq<Step>)
    requires Reached(w.a, r, w.addressB) && Polled(w.a, r, w.addressB) && Mirrors(w, r, n) && n.now == time
    requires Visits(order, w.a.byId.Keys) && (RoundBegins(w.a, r, order, time) ==> MayFire(n))
    ensures Follows(w.(a := Serve(w.a, order, time).s), r, n, steps, if RoundBegins(w.a, r, order, time) then 1 else 0)
  {
    var o := UpdateClients(w.a, order, time);
    UpdateClientsIndexes(w.a, order, time);
    ReachedStays(w.a, o.s, r, w.addressB);
    steps := LoopMirrors(w, r, n, order, time);
    if o.event.None? {
      var t := ReceiveMessages(o.s, o.s.bufferSize, time).s;
      assert Serve(w.a, order, time).s == t;
      var more := RepliesMirror(w.(a := o.s), r, Run(n, steps), o.s.bufferSize, time);
      Chain(w.(a := t), r, n, steps, more, if RoundBegins(w.a, r, order, time) then 1 else 0);
      steps := steps + more;
    }
  }

  /** The poll gets as far as the passes, and these begin a reset round for `r`. */
  ghost predicate PollBeginsRound<R>(s: Server<R>, r: R, order: seq<uint32>, time: int)
    requires WF(s) && forall id <- order :: id in s.byId
  {
    UpdatePendingClientsWF(s, time);
    var o := UpdatePendingClients(s, time);
    o.event.None? && RoundBegins(o.s, r, order, time)
  }

  lemma PendingMirrors<R>(w: World<R>, r: R, n: Net, time: int)
    requires Reached(w.a, r, w.addressB) && Polled(w.a, r, w.addressB) && Mirrors(w, r, n)
    ensures var t := UpdatePendingClients(w.a, time).s;
            && Reached(t, r, w.addressB) && Polled(t, r, w.addressB) && t.byId == w.a.byId
            && Mirrors(w.(a := t), r, n)
  {
    var t := UpdatePendingClients(w.a, time).s;
    UpdatePendingUnseen(w.a, r, w.addressB, w.b.signature, time);
    UnseenAMirrors(w, t, r, n);
    UpdatePendingIndexes(w.a, time);
    ReachedStays(w.a, t, r, w.addressB);
    PolledStays(w.a, t, r, w.addressB);
  }

  lemma ProcessMirrors<R>(w: World<R>, r: R, n: Net, order: seq<uint32>, time: int) returns (steps: seq<Step>)
    requires Reached(w.a, r, w.addressB) && Polled(w.a, r, w.addressB) && Mirrors(w, r, n) && n.now == time
    requires Visits(order, w.a.byId.Keys) && (PollBeginsRound(w.a, r, order, time) ==> MayFire(n))
    ensures Follows(w.(a := ProcessEvents(w.a, order, time).s), r, n, steps,
                    if PollBeginsRound(w.a, r, order, time) then 1 else 0)
  {
    var o := UpdatePendingClients(w.a, time);
    PendingMirrors(w, r, n, time);
    if o.event.None? {
      assert ProcessEvents(w.a, order, time) == Serve(o.s, order, time);
      steps := ServeMirrors(w.(a := o.s), r, n, order, time);
    } else {
      steps := [];
      NoSteps(w.(a := o.s), r, n);
    }
  }

  // ---- the other calls on A ----

  /** The message a call on A hands over for the peer of `r`, if it is accepted. */
  function Submitted<R>(s: Server<R>, r: R, call: Call<R>): seq<Msg>
    requires WF(s) && r in s.heap && (call.PushReliable? ==> |call.data| < 0x1_0000_0000)
  {
    if call.PushReliable? && call.id == s.heap[r].id && SendReliable(s, call.id, call.data).1 then [call.data] else []
  }

  lemma CallUnseen<R>(s: Server<R>, r: R, call: Call<R>, peer: Address, peerSignature: Signature)
    requires Polled(s, r, peer) && Legal(s, call) && !call.Process? && Submitted(s, r, call) == []
    requires call.Arrive? ==> call.d.address != peer
    ensures UnseenA(s, After(s, call).s, r, peer, peerSignature)
  {
    match call
    case PushUnreliable(id, data) => UnreliableUnseen(s, r, id, data, peer, peerSignature);
    case PushReliable(id, data) => OtherPushUnseen(s, r, id, data, peer, peerSignature);
    case Arrive(d) =>
      GotAppend(s.signature, false, s.inbox, [d], peer);
      GotOne(s.signature, false, d, peer);
    case _ =>
  }

  lemma UnreliableUnseen<R>(s: Server<R>, r: R, id: uint32, data: seq<byte>, peer: Address, peerSignature: Signature)
    requires WF(s) && r in s.heap && |data| < 0x1_0000_0000
    ensures UnseenA(s, SendUnreliable(s, id, data).0, r, peer, peerSignature)
  {
    var t := SendUnreliable(s, id, data).0;
    if t != s {
      SendUnseenA(s, t, r, s.heap[s.byId[id]].outgoing, Unreliable(data), s.prefix, peer, peerSignature);
    }
  }

  lemma OtherPushUnseen<R>(s: Server<R>, r: R, id: uint32, data: seq<byte>, peer: Address, peerSignature: Signature)
    requires Polled(s, r, peer) && |data| < 0x1_0000_0000
    requires id != s.heap[r].id || !SendReliable(s, id, data).1
    ensures UnseenA(s, SendReliable(s, id, data).0, r, peer, peerSignature)
  {
  }

  lemma SubmitMirrors<R>(w: World<R>, r: R, n: Net, data: Msg)
    requires Polled(w.a, r, w.addressB) && Mirrors(w, r, n) && |data| < 0x1_0000_0000
    requires SendReliable(w.a, w.a.heap[r].id, data).1
    ensures Follows(w.(a := SendReliable(w.a, w.a.heap[r].id, data).0, pushed := w.pushed + [data]),
                    r, n, [Submit(data)], 0)
  {
    OneStep(n, Submit(data));
    SameTraffic(w, SendReliable(w.a, w.a.heap[r].id, data).0);
  }
}
