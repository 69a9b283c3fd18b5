// Two whole servers joined by two FIFO channels of raw datagrams. Seen from one connected client of
// server A and the entry server B keeps for A's address, everything the servers and the channels do
// is a run of the protocol.

module Link {
  import opened Bytes
  import opened Message
  import opened Client
  import opened ServerSpec
  import opened Protocol
  import opened Repetition

  // ---- the packets that matter ----

  /** Of the packets under `signature`: towards the receiver the reliable ones, towards the sender their handshakes. */
  predicate Relevant(forward: bool, p: Packet) {
    if forward then p.Reliable? || p.ReliableReset? else p.Handshake? || p.HandshakeReset?
  }

  function Pick(signature: Signature, forward: bool, raws: seq<seq<byte>>): seq<Packet> {
    if raws == [] then []
    else
      var p := Parse(signature, raws[0]);
      (if p.Some? && Relevant(forward, p.value) then [p.value] else []) + Pick(signature, forward, raws[1..])
  }

  /** The bytes of the datagrams from, or to, one address. */
  function At(ds: seq<Datagram>, address: Address): seq<seq<byte>> {
    if ds == [] then []
    else (if ds[0].address == address then [ds[0].bytes] else []) + At(ds[1..], address)
  }

  function Got(signature: Signature, forward: bool, ds: seq<Datagram>, address: Address): seq<Packet> {
    Pick(signature, forward, At(ds, address))
  }

  lemma {:induction false} PickAppend(signature: Signature, forward: bool, x: seq<seq<byte>>, y: seq<seq<byte>>)
    ensures Pick(signature, forward, x + y) == Pick(signature, forward, x) + Pick(signature, forward, y)
  {
    if x == [] {
      assert x + y == y;
    } else {
      assert (x + y)[1..] == x[1..] + y;
      PickAppend(signature, forward, x[1..], y);
    }
  }

  lemma {:induction false} AtAppend(x: seq<Datagram>, y: seq<Datagram>, address: Address)
    ensures At(x + y, address) == At(x, address) + At(y, address)
  {
    if x == [] {
      assert x + y == y;
    } else {
      assert (x + y)[1..] == x[1..] + y;
      AtAppend(x[1..], y, address);
    }
  }

  lemma GotAppend(signature: Signature, forward: bool, x: seq<Datagram>, y: seq<Datagram>, address: Address)
    ensures Got(signature, forward, x + y, address)
        == Got(signature, forward, x, address) + Got(signature, forward, y, address)
  {
    AtAppend(x, y, address);
    PickAppend(signature, forward, At(x, address), At(y, address));
  }

  lemma GotOne(signature: Signature, forward: bool, d: Datagram, address: Address)
    ensures var p := Parse(signature, d.bytes);
            Got(signature, forward, [d], address)
            == if d.address == address && p.Some? && Relevant(forward, p.value) then [p.value] else []
  {
    assert [d][1..] == [] && [d][0] == d;
    assert At([d], address) == if d.address == address then [d.bytes] else [];
    assert [d.bytes][1..] == [] && [d.bytes][0] == d.bytes;
    assert Pick(signature, forward, []) == [];
    var p := Parse(signature, d.bytes);
    assert Pick(signature, forward, [d.bytes]) == if p.Some? && Relevant(forward, p.value) then [p.value] else [];
  }

  lemma GotFront(signature: Signature, forward: bool, ds: seq<Datagram>, address: Address)
    requires ds != []
    ensures Got(signature, forward, ds, address)
            == Got(signature, forward, [ds[0]], address) + Got(signature, forward, ds[1..], address)
  {
    assert ds == [ds[0]] + ds[1..];
    GotAppend(signature, forward, [ds[0]], ds[1..], address);
  }

  /** A packet just sent reaches the peer's side of the books if it is relevant and went out under the peer's
      signature. */
  lemma GotSent(signature: Signature, forward: bool, prefix: Signature, to: Address, p: Packet, address: Address)
    ensures Got(signature, forward, [Datagram(to, Wire(prefix, p))], address)
            == if to == address && prefix == signature && Relevant(forward, p) then [p] else []
  {
    GotOne(signature, forward, Datagram(to, Wire(prefix, p)), address);
    ForeignSignature(signature, prefix, p);
  }

  lemma {:induction false} GotDatagrams(signature: Signature, forward: bool, prefix: Signature, to: Address,
          packets: seq<Packet>, address: Address)
    requires forall p <- packets :: !Relevant(forward, p)
    ensures Got(signature, forward, Datagrams(prefix, to, packets), address) == []
  {
    if packets != [] {
      var rest := Datagrams(prefix, to, packets[1..]);
      var d := Datagram(to, Wire(prefix, packets[0]));
      assert packets[0] in packets;
      GotDatagrams(signature, forward, prefix, to, packets[1..], address);
      GotAppend(signature, forward, [d], rest, address);
      GotSent(signature, forward, prefix, to, packets[0], address);
    }
  }

  // ---- the world ----

  datatype World<R(==)> = World(
    a: Server<R>,
    b: Server<R>,
    ab: seq<seq<byte>>,
    ba: seq<seq<byte>>,
    addressA: Address,
    addressB: Address,
    pushed: seq<Msg>,
    delivered: seq<Msg>)

  /** Reliable packets on their way to B, oldest first: in B's inbox, in the channel, just handed over by A. */
  function Forwards<R>(w: World<R>): seq<Packet> {
    Got(w.b.signature, true, w.b.inbox, w.addressA) + Pick(w.b.signature, true, w.ab)
    + Got(w.b.signature, true, w.a.outbox, w.addressB)
  }

  function Backwards<R>(w: World<R>): seq<Packet> {
    Got(w.a.signature, false, w.a.inbox, w.addressB) + Pick(w.a.signature, false, w.ba)
    + Got(w.a.signature, false, w.b.outbox, w.addressA)
  }

  /** The fields of a client the protocol is about. */
  predicate SameReliable(c: ClientState, d: ClientState) {
    && c.queue == d.queue && c.reliableState == d.reliableState
    && c.reliableSentTime == d.reliableSentTime && c.reliableTimeoutPeriod == d.reliableTimeoutPeriod
  }

  function Packets(xs: seq<InFlight>): (ps: seq<Packet>)
    ensures |ps| == |xs| && forall i | 0 <= i < |xs| :: ps[i] == xs[i].packet
  {
    if xs == [] then [] else [xs[0].packet] + Packets(xs[1..])
  }

  /** The world, seen from client `r` of A, is the net `n`. */
  ghost predicate Mirrors<R>(w: World<R>, r: R, n: Net) {
    && r in w.a.heap && SameReliable(w.a.heap[r], n.sender)
    && n.entry == EntryOf(w.b.reliableStates, w.addressA)
    && Packets(n.fwd) == Forwards(w) && Packets(n.bwd) == Backwards(w)
    && n.submitted == w.pushed && n.delivered == w.delivered
  }

  lemma PacketsAppend(xs: seq<InFlight>, x: InFlight)
    ensures Packets(xs + [x]) == Packets(xs) + [x.packet]
  {
  }

  lemma PacketsTail(xs: seq<InFlight>)
    requires xs != []
    ensures Packets(xs[1..]) == Packets(xs)[1..]
  {
  }

  // ---- runs of the protocol, in pieces ----

  /** Of the first reset round of a run, it is told whether the message in hand was out there when the run began. */
  ghost predicate Careful(n: Net, steps: seq<Step>) {
    OutThere(n) || Risks(n, steps) == 0
  }

  /** `steps` take the net to where it mirrors `w`, with at most `rounds` resets fired and the clock untouched. */
  ghost predicate Follows<R>(w: World<R>, r: R, n: Net, steps: seq<Step>, rounds: nat) {
    && Guarded(n, steps) && Mirrors(w, r, Run(n, steps))
    && Run(n, steps).now == n.now && Run(n, steps).resets <= n.resets + rounds
    && (rounds > 0 ==> Careful(n, steps))
  }

  lemma NoSteps<R>(w: World<R>, r: R, n: Net)
    requires Mirrors(w, r, n)
    ensures Follows(w, r, n, [], 0)
  {
  }

  lemma Chain<R>(w: World<R>, r: R, n: Net, steps: seq<Step>, more: seq<Step>, rounds: nat)
    requires Guarded(n, steps) && Run(n, steps).now == n.now && Run(n, steps).resets <= n.resets + rounds
    requires (rounds > 0 ==> Careful(n, steps)) && Follows(w, r, Run(n, steps), more, 0)
    ensures Follows(w, r, n, steps + more, rounds)
  {
    RunConcat(n, steps, more);
    RisksConcat(n, steps, more);
    RisksAreRounds(Run(n, steps), more);
  }

  // ---- operations of A that the protocol does not see ----

  ghost predicate UnseenA<R>(s: Server<R>, t: Server<R>, r: R, peer: Address, peerSignature: Signature) {
    && r in s.heap && r in t.heap && SameReliable(s.heap[r], t.heap[r])
    && t.signature == s.signature
    && Got(s.signature, false, t.inbox, peer) == Got(s.signature, false, s.inbox, peer)
    && Got(peerSignature, true, t.outbox, peer) == Got(peerSignature, true, s.outbox, peer)
  }

  lemma UnseenATwice<R>(s: Server<R>, t: Server<R>, u: Server<R>, r: R, peer: Address, peerSignature: Signature)
    requires UnseenA(s, t, r, peer, peerSignature) && UnseenA(t, u, r, peer, peerSignature)
    ensures UnseenA(s, u, r, peer, peerSignature)
  {
  }

  lemma UnseenAMirrors<R>(w: World<R>, t: Server<R>, r: R, n: Net)
    requires Mirrors(w, r, n) && UnseenA(w.a, t, r, w.addressB, w.b.signature)
    ensures Mirrors(w.(a := t), r, n)
  {
  }

  /** Sending something irrelevant, and changing anything but the reliable part of `r`. */
  lemma SendUnseenA<R>(s: Server<R>, t: Server<R>, r: R, to: Address, p: Packet, prefix: Signature, peer: Address,
          peerSignature: Signature)
    requires r in s.heap && r in t.heap && SameReliable(s.heap[r], t.heap[r])
    requires t.signature == s.signature && t.inbox == s.inbox && !Relevant(true, p)
    requires t.outbox == s.outbox + [Datagram(to, Wire(prefix, p))]
    ensures UnseenA(s, t, r, peer, peerSignature)
  {
    GotAppend(peerSignature, true, s.outbox, [Datagram(to, Wire(prefix, p))], peer);
    GotSent(peerSignature, true, prefix, to, p, peer);
  }
}
