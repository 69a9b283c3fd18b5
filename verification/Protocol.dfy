// The reliable-message protocol.

module Protocol {
  import opened Bytes
  import opened Message
  import opened Client
  import opened ServerSpec

  // One sender (a client of one server) and one receiver (the entry another server keeps for the sender's address),
  // over two FIFO channels that may lose packets and duplicate them in place. Sender and receiver steps are the
  // functions the server code is proved against.

  type Msg = seq<byte>

  /** A packet in a channel; `born` is when the sender sent it, or sent the packet it answers. */
  datatype InFlight = InFlight(packet: Packet, born: int)

  datatype Net = Net(
    sender: ClientState,
    entry: Option<Bit>,
    fwd: seq<InFlight>,
    bwd: seq<InFlight>,
    now: int,
    submitted: seq<Msg>,
    popped: seq<Msg>,
    delivered: seq<Msg>,
    resets: nat)

  datatype Step =
    | Submit(m: Msg)
    | Tick(t: int)
    | PollSender
    | DeliverForward
    | DeliverReply
    | LoseForward(i: nat)
    | LoseReply(i: nat)
    | DuplicateForward(i: nat)
    | DuplicateReply(i: nat)

  function RemoveAt<T>(s: seq<T>, i: nat): seq<T> {
    if i < |s| then s[..i] + s[i + 1..] else s
  }

  /** Duplication in place: the copy directly behind the original. */
  function DuplicateAt<T>(s: seq<T>, i: nat): seq<T> {
    if i < |s| then s[..i + 1] + s[i..] else s
  }

  /** The poll that gives up waiting and starts a reset round. */
  predicate Fires(n: Net, step: Step) {
    step.PollSender? && n.sender.queue != [] && n.sender.reliableState != -1 && NeedsReliableReset(n.sender, n.now)
  }

  function Forward(n: Net): Net
    requires n.fwd != []
  {
    var x := n.fwd[0];
    var n1 := n.(fwd := n.fwd[1..]);
    match x.packet
    case ReliableReset(stamp) =>
      n1.(entry := ReceiveReset(n.entry), bwd := n.bwd + [InFlight(HandshakeReset(stamp), x.born)])
    case Reliable(bit, stamp, data) =>
      var (entry, deliver) := ReceiveReliable(n.entry, bit);
      n1.(entry := entry, bwd := n.bwd + [InFlight(Handshake(bit, stamp), x.born)],
          delivered := if deliver then n.delivered + [data] else n.delivered)
    case _ => n1
  }

  function AckedState(p: Packet): ReliableState
    requires p.HandshakeReset? || p.Handshake?
  {
    if p.HandshakeReset? then -1 else p.bit
  }

  function Reply(n: Net): Net
    requires n.bwd != []
  {
    var p := n.bwd[0].packet;
    var n1 := n.(bwd := n.bwd[1..]);
    if !p.HandshakeReset? && !p.Handshake? then n1
    else
      var c := ReceiveReliableHandshake(n.sender, AckedState(p), p.stamp, n.now);
      n1.(sender := c, popped := if c.queue == n.sender.queue then n.popped else n.popped + [n.sender.queue[0]])
  }

  function Apply(n: Net, step: Step): Net {
    match step
    case Submit(m) => n.(sender := n.sender.(queue := n.sender.queue + [m]), submitted := n.submitted + [m])
    case Tick(t) => n.(now := t)
    case PollSender =>
      var (c, out) := PollReliable(n.sender, n.now);
      n.(sender := c,
         fwd := if out.Some? then n.fwd + [InFlight(out.value, n.now)] else n.fwd,
         resets := if Fires(n, step) then n.resets + 1 else n.resets)
    case DeliverForward => if n.fwd == [] then n else Forward(n)
    case DeliverReply => if n.bwd == [] then n else Reply(n)
    case LoseForward(i) => n.(fwd := RemoveAt(n.fwd, i))
    case LoseReply(i) => n.(bwd := RemoveAt(n.bwd, i))
    case DuplicateForward(i) => n.(fwd := DuplicateAt(n.fwd, i))
    case DuplicateReply(i) => n.(bwd := DuplicateAt(n.bwd, i))
  }

  function Run(n: Net, steps: seq<Step>): Net
    decreases |steps|
  {
    if steps == [] then n else Run(Apply(n, steps[0]), steps[1..])
  }

  /** No RESET and no HANDSHAKE_RESET in flight. */
  ghost predicate Quiet(n: Net) {
    && (forall i | 0 <= i < |n.fwd| :: !n.fwd[i].packet.ReliableReset?)
    && (forall i | 0 <= i < |n.bwd| :: !n.bwd[i].packet.HandshakeReset?)
  }

  /** The message being sent, under the sender's bit. */
  predicate Current(p: Packet, b: Bit, queue: seq<Msg>) {
    p.Reliable? && p.bit == b && queue != [] && p.data == queue[0]
  }

  predicate Stale(p: Packet, b: Bit) {
    p.Reliable? && p.bit == Flip(b)
  }

  predicate Acks(p: Packet, b: Bit) {
    p.Handshake? && p.bit == b
  }

  /** No copy of the front message under bit `b` in flight, and no acknowledgement of it. */
  ghost predicate FrontAbsent(n: Net, b: Bit) {
    && (forall i | 0 <= i < |n.fwd| :: !Current(n.fwd[i].packet, b, n.sender.queue))
    && (forall i | 0 <= i < |n.bwd| :: !Acks(n.bwd[i].packet, b))
  }

  /** A reset may fire: no reset traffic of an earlier round is in flight, or nothing of the front message is. */
  ghost predicate MayFire(n: Net) {
    n.sender.reliableState != -1 ==> Quiet(n) || FrontAbsent(n, n.sender.reliableState)
  }

  /** Every reset of the run fires when it may. */
  ghost predicate Guarded(n: Net, steps: seq<Step>)
    decreases |steps|
  {
    steps != [] ==> (Fires(n, steps[0]) ==> MayFire(n)) && Guarded(Apply(n, steps[0]), steps[1..])
  }

  /** A client just created, nothing in flight; the receiver's entry is whatever the address left behind. */
  predicate Fresh(n: Net) {
    && n.sender.reliableState == 0 && n.sender.queue == [] && n.sender.reliableSentTime == 0
    && n.fwd == [] && n.bwd == []
    && n.submitted == [] && n.popped == [] && n.delivered == [] && n.resets == 0
  }

  // ---- deliveries as copies ----

  function Repeat<T>(x: T, k: nat): seq<T> {
    seq(k, _ => x)
  }

  /** The first |copies| elements of `s`, the i-th one repeated copies[i] times. */
  function Expand<T>(s: seq<T>, copies: seq<nat>): seq<T>
    requires |copies| <= |s|
  {
    if copies == [] then []
    else
      var k := |copies| - 1;
      Expand(s, copies[..k]) + Repeat(s[k], copies[k])
  }

  /** Copies beyond the first of each message. */
  function Extra(copies: seq<nat>): int {
    if copies == [] then 0 else Extra(copies[..|copies| - 1]) + copies[|copies| - 1] - 1
  }

  predicate AtLeastOnce(copies: seq<nat>) {
    forall i | 0 <= i < |copies| :: copies[i] >= 1
  }

  /** One more delivery of message `k`, which is the last one delivered or the one after it. */
  function Bump(copies: seq<nat>, k: nat): seq<nat>
    requires k == |copies| || k + 1 == |copies|
  {
    if k == |copies| then copies + [1] else copies[k := copies[k] + 1]
  }

  lemma {:induction false} RepeatMore<T>(x: T, k: nat)
    ensures Repeat(x, k + 1) == Repeat(x, k) + [x]
  {
  }

  lemma {:induction false} ExpandBump<T>(s: seq<T>, copies: seq<nat>, k: nat)
    requires k < |s| && (k == |copies| || k + 1 == |copies|)
    ensures Expand(s, Bump(copies, k)) == Expand(s, copies) + [s[k]]
    ensures Extra(Bump(copies, k)) == Extra(copies) + if k == |copies| then 0 else 1
  {
    var more := Bump(copies, k);
    assert more[..k] == copies[..k];
    RepeatMore(s[k], more[k] - 1);
    if k == |copies| {
      assert copies[..k] == copies;
      assert Repeat(s[k], 0) == [];
      assert Repeat(s[k], 1) == [s[k]];
    } else {
      Associative(Expand(s, copies[..k]), Repeat(s[k], copies[k]), [s[k]]);
    }
  }

  lemma {:induction false} ExpandExtend<T>(s: seq<T>, t: seq<T>, copies: seq<nat>)
    requires |copies| <= |s|
    ensures Expand(s + t, copies) == Expand(s, copies)
  {
    if copies != [] {
      ExpandExtend(s, t, copies[..|copies| - 1]);
    }
  }

  lemma {:induction false} ExtraBounds(copies: seq<nat>)
    requires AtLeastOnce(copies)
    ensures Extra(copies) >= 0
  {
    if copies != [] {
      ExtraBounds(copies[..|copies| - 1]);
    }
  }

  lemma {:induction false} ExpandOnce<T>(s: seq<T>, copies: seq<nat>)
    requires |copies| <= |s| && Extra(copies) <= 0 && AtLeastOnce(copies)
    ensures Expand(s, copies) == s[..|copies|]
  {
    if copies != [] {
      var k := |copies| - 1;
      ExtraBounds(copies[..k]);
      ExpandOnce(s, copies[..k]);
      assert Repeat(s[k], 1) == [s[k]];
      assert s[..k] + [s[k]] == s[..k + 1];
    }
  }

  // ---- the invariant ----

  /** The receiver waits for bit b and will deliver the next current packet. */
  ghost predicate Expects(entry: Option<Bit>, b: Bit, fwd: seq<InFlight>) {
    || entry == Some(b)
    || (entry == None && b == 0 && forall i | 0 <= i < |fwd| :: !Stale(fwd[i].packet, b))
  }

  /** Sender at bit b, front message not accepted yet under b. */
  ghost predicate Waiting(n: Net, b: Bit) {
    && (forall i | 0 <= i < |n.fwd| :: Current(n.fwd[i].packet, b, n.sender.queue) || Stale(n.fwd[i].packet, b)
                                     || (b == 0 && n.fwd[i].packet.ReliableReset?))
    && (forall i, j | 0 <= i < j < |n.fwd| ::
          Current(n.fwd[i].packet, b, n.sender.queue) ==> Current(n.fwd[j].packet, b, n.sender.queue))
    && Expects(n.entry, b, n.fwd)
    && (forall i | 0 <= i < |n.bwd| :: !Acks(n.bwd[i].packet, b))
  }

  /** Sender at bit b, front message accepted under b, not acknowledged yet. */
  ghost predicate Accepted(n: Net, b: Bit) {
    && n.sender.queue != []
    && n.entry == Some(Flip(b))
    && (forall i | 0 <= i < |n.fwd| :: Current(n.fwd[i].packet, b, n.sender.queue))
    && (forall i, j | 0 <= i < j < |n.bwd| :: Acks(n.bwd[i].packet, b) ==> Acks(n.bwd[j].packet, b))
  }

  /** What may be left of the last reset round: nothing, or, before the first acknowledgement under bit 0, RESETs
      ahead of all copies of the front message and their handshakes ahead of all its acknowledgements. */
  ghost predicate Leftover(n: Net, b: Bit) {
    || Quiet(n)
    || (&& b == 0
        && (forall i | 0 <= i < |n.fwd| ::
              n.fwd[i].packet.ReliableReset? || Current(n.fwd[i].packet, b, n.sender.queue))
        && (forall i, j | 0 <= i < j < |n.fwd| ::
              Current(n.fwd[i].packet, b, n.sender.queue) ==> Current(n.fwd[j].packet, b, n.sender.queue))
        && (forall i | 0 <= i < |n.bwd| :: n.bwd[i].packet.HandshakeReset? || Acks(n.bwd[i].packet, b))
        && (forall i, j | 0 <= i < j < |n.bwd| :: Acks(n.bwd[i].packet, b) ==> Acks(n.bwd[j].packet, b)))
  }

  /** The sender released to bit 0 by an early HANDSHAKE_RESET, while the receiver still holds the front message
      under bit 0 and the RESETs are ahead of everything sent since. */
  ghost predicate Behind(n: Net) {
    && n.sender.queue != [] && n.entry == Some(1)
    && (forall i | 0 <= i < |n.fwd| :: n.fwd[i].packet.ReliableReset? || Current(n.fwd[i].packet, 0, n.sender.queue))
    && (forall i, j | 0 <= i < j < |n.fwd| ::
          Current(n.fwd[i].packet, 0, n.sender.queue) ==> Current(n.fwd[j].packet, 0, n.sender.queue))
    && (forall i | 0 <= i < |n.bwd| :: n.bwd[i].packet.HandshakeReset?)
  }

  /** The same before the release: the receiver holds the front message, and only reset traffic is in flight. */
  ghost predicate ResetHeld(n: Net) {
    && n.sender.queue != [] && n.entry == Some(1)
    && (forall i | 0 <= i < |n.fwd| :: n.fwd[i].packet.ReliableReset?)
    && (forall i | 0 <= i < |n.bwd| :: n.bwd[i].packet.HandshakeReset?)
  }

  /** Reset round begun, no RESET of it received; before it the sender was at bit b, waiting or accepted. */
  ghost predicate ResetUnseen(n: Net, b: Bit, accepted: bool) {
    && n.sender.queue != []
    && (forall i | 0 <= i < |n.fwd| :: Current(n.fwd[i].packet, b, n.sender.queue) || n.fwd[i].packet.ReliableReset?
                                     || (!accepted && Stale(n.fwd[i].packet, b)))
    && (forall i, j | 0 <= i < j < |n.fwd| :: Current(n.fwd[i].packet, b, n.sender.queue) ==>
                                              Current(n.fwd[j].packet, b, n.sender.queue)
                                                  || n.fwd[j].packet.ReliableReset?)
    && (forall i, j | 0 <= i < j < |n.fwd| :: n.fwd[i].packet.ReliableReset? ==> n.fwd[j].packet.ReliableReset?)
    && (if accepted then n.entry == Some(Flip(b)) else Expects(n.entry, b, n.fwd))
    && (forall i | 0 <= i < |n.bwd| :: !n.bwd[i].packet.HandshakeReset?)
  }

  /** Reset round begun and seen by the receiver. */
  ghost predicate ResetSeen(n: Net) {
    && n.sender.queue != []
    && (forall i | 0 <= i < |n.fwd| :: n.fwd[i].packet.ReliableReset?)
    && n.entry != Some(1)
    && (forall i, j | 0 <= i < j < |n.bwd| :: n.bwd[i].packet.HandshakeReset? ==> n.bwd[j].packet.HandshakeReset?)
  }

  /** S is P then Q, and D is S's first |copies| messages, each at least once and repeats consecutive. */
  ghost predicate Accounts(n: Net, copies: seq<nat>) {
    && n.submitted == n.popped + n.sender.queue
    && |n.popped| <= |copies| <= |n.popped| + 1 && |copies| <= |n.submitted|
    && (AtLeastOnce(copies))
    && n.delivered == Expand(n.submitted, copies)
  }

  /** 1 when the front message has been delivered already. */
  function Ahead(n: Net, copies: seq<nat>): int {
    |copies| - |n.popped|
  }

  /** A copy of the front message under bit `b` is on its way. */
  ghost predicate CopyInFlight(n: Net, b: Bit) {
    exists i | 0 <= i < |n.fwd| :: Current(n.fwd[i].packet, b, n.sender.queue)
  }

  /** Where a sender and receiver can be: in the normal course at bit b with the front message awaited or accepted, or
      just released behind the receiver's back; in a reset round unseen or seen by the receiver, or seen while it still
      holds the front message. */
  datatype Stage =
    | Waits(b: Bit)
    | Accepts(b: Bit)
    | LagsBehind
    | Unseen(b: Bit, accepted: bool)
    | Seen
    | Held

  ghost predicate Stands(n: Net, copies: seq<nat>, stage: Stage) {
    var spent := Extra(copies) + Ahead(n, copies);
    match stage
    case Waits(b) => n.sender.reliableState == b && Leftover(n, b) && Waiting(n, b) && spent <= n.resets
    case Accepts(b) =>
      n.sender.reliableState == b && Leftover(n, b) && Accepted(n, b) && Ahead(n, copies) == 1 && spent <= n.resets + 1
    case LagsBehind => n.sender.reliableState == 0 && Behind(n) && Ahead(n, copies) == 1 && spent <= n.resets
    case Unseen(b, accepted) =>
      && n.sender.reliableState == -1 && ResetUnseen(n, b, accepted)
      && (accepted ==> Ahead(n, copies) == 1)
      && spent + (if !accepted && CopyInFlight(n, b) then 1 else 0) <= n.resets
    case Seen => n.sender.reliableState == -1 && ResetSeen(n) && spent <= n.resets
    case Held => n.sender.reliableState == -1 && ResetHeld(n) && Ahead(n, copies) == 1 && spent <= n.resets
  }

  ghost predicate Typed(n: Net) {
    && (forall i | 0 <= i < |n.fwd| :: n.fwd[i].packet.Reliable? || n.fwd[i].packet.ReliableReset?)
    && (forall i | 0 <= i < |n.bwd| :: n.bwd[i].packet.Handshake? || n.bwd[i].packet.HandshakeReset?)
  }

  ghost predicate Inv(n: Net, copies: seq<nat>) {
    Accounts(n, copies) && Typed(n) && exists stage :: Stands(n, copies, stage)
  }

  lemma FreshInv(n: Net)
    requires Fresh(n) && n.entry != Some(1)
    ensures Inv(n, [])
  {
    assert Quiet(n) && Waiting(n, 0) && Accounts(n, []);
    assert Stands(n, [], Waits(0));
  }

  /** Submitting leaves the stage alone. */
  lemma SubmitKeeps(n: Net, m: Msg, copies: seq<nat>)
    requires Inv(n, copies)
    ensures Inv(Apply(n, Submit(m)), copies)
  {
    var n' := Apply(n, Submit(m));
    ExpandExtend(n.submitted, [m], copies);
    assert n'.submitted == n'.popped + n'.sender.queue;
    var stage :| Stands(n, copies, stage);
    if n.sender.queue != [] {
      SubmitBehind(n, n', copies, stage);
    } else {
      SubmitFirst(n, n', stage.b, copies);
    }
    assert Stands(n', copies, stage);
  }

  lemma SubmitBehind(n: Net, n': Net, copies: seq<nat>, stage: Stage)
    requires n.sender.queue != [] && Stands(n, copies, stage)
    requires n' == n.(sender := n'.sender, submitted := n'.submitted)
    requires n'.sender == n.sender.(queue := n'.sender.queue) && n.sender.queue <= n'.sender.queue
    ensures Stands(n', copies, stage)
  {
    assert n'.sender.queue[0] == n.sender.queue[0];
    assert forall p: Packet, b: Bit :: Current(p, b, n'.sender.queue) == Current(p, b, n.sender.queue);
  }

  lemma SubmitFirst(n: Net, n': Net, b: Bit, copies: seq<nat>)
    requires n.sender.queue == [] && Stands(n, copies, Waits(b))
    requires n'.fwd == n.fwd && n'.bwd == n.bwd && n'.entry == n.entry
    requires n' == n.(sender := n'.sender, submitted := n'.submitted)
        && n'.sender.reliableState == n.sender.reliableState
    ensures Stands(n', copies, Waits(b))
  {
    assert forall i | 0 <= i < |n.fwd| :: !Current(n'.fwd[i].packet, b, n'.sender.queue);
  }

  // ---- polling ----

  lemma PollSendsKeeps(n: Net, copies: seq<nat>)
    requires Inv(n, copies) && n.sender.queue != [] && n.sender.reliableState != -1 && !Fires(n, PollSender)
    ensures Inv(Apply(n, PollSender), copies)
  {
    var n' := Apply(n, PollSender);
    var b: Bit := n.sender.reliableState;
    var k := |n.fwd|;
    assert Current(n'.fwd[k].packet, b, n'.sender.queue);
    assert forall i | 0 <= i < k :: n'.fwd[i] == n.fwd[i];
    var stage :| Stands(n, copies, stage);
    LeftoverGrows(n, n', b);
    PositionGrows(n, n', b);
    assert Stands(n', copies, stage);
  }

  /** One more copy of the front message at the end of the channel. */
  lemma LeftoverGrows(n: Net, n': Net, b: Bit)
    requires n'.bwd == n.bwd && n'.sender.queue == n.sender.queue && |n'.fwd| == |n.fwd| + 1
    requires Current(n'.fwd[|n.fwd|].packet, b, n'.sender.queue) && forall i | 0 <= i < |n.fwd| :: n'.fwd[i] == n.fwd[i]
    ensures Leftover(n, b) ==> Leftover(n', b)
  {
  }

  lemma PositionGrows(n: Net, n': Net, b: Bit)
    requires n'.bwd == n.bwd && n'.sender.queue == n.sender.queue && n'.entry == n.entry && |n'.fwd| == |n.fwd| + 1
    requires Current(n'.fwd[|n.fwd|].packet, b, n'.sender.queue) && forall i | 0 <= i < |n.fwd| :: n'.fwd[i] == n.fwd[i]
    ensures Waiting(n, b) ==> Waiting(n', b)
    ensures Accepted(n, b) ==> Accepted(n', b)
    ensures b == 0 && Behind(n) ==> Behind(n')
  {
  }

  lemma PollResendsResetKeeps(n: Net, copies: seq<nat>)
    requires Inv(n, copies) && n.sender.queue != [] && n.sender.reliableState == -1
    ensures Inv(Apply(n, PollSender), copies)
  {
    var n' := Apply(n, PollSender);
    var k := |n.fwd|;
    assert n'.fwd[k].packet.ReliableReset? && forall i | 0 <= i < k :: n'.fwd[i] == n.fwd[i];
    var stage :| Stands(n, copies, stage);
    if stage.Unseen? {
      UnseenGrows(n, n', stage.b, stage.accepted);
    }
    assert Stands(n', copies, stage);
  }

  /** One more RESET at the end of the channel. */
  lemma UnseenGrows(n: Net, n': Net, b: Bit, accepted: bool)
    requires n' == n.(fwd := n'.fwd) && |n'.fwd| == |n.fwd| + 1 && n'.fwd[|n.fwd|].packet.ReliableReset?
    requires ResetUnseen(n, b, accepted) && forall i | 0 <= i < |n.fwd| :: n'.fwd[i] == n.fwd[i]
    ensures ResetUnseen(n', b, accepted) && (CopyInFlight(n', b) ==> CopyInFlight(n, b))
  {
  }

  /** The stage a reset round begins in. */
  lemma PollFiresKeeps(n: Net, copies: seq<nat>)
    requires Inv(n, copies) && Fires(n, PollSender) && MayFire(n)
    ensures Inv(Apply(n, PollSender), copies)
  {
    var n' := Apply(n, PollSender);
    var stage :| Stands(n, copies, stage);
    if Quiet(n) {
      QuietFires(n, copies, stage);
    } else if stage.Waits? {
      assert Stands(n', copies, Seen);
    } else {
      assert Stands(n', copies, Held);
    }
  }

  lemma QuietFires(n: Net, copies: seq<nat>, stage: Stage)
    requires Inv(n, copies) && Fires(n, PollSender) && Quiet(n) && Stands(n, copies, stage)
    ensures Inv(Apply(n, PollSender), copies)
  {
    var n' := Apply(n, PollSender);
    match stage
    case Waits(b) => assert Stands(n', copies, Unseen(b, false));
    case Accepts(b) => assert Stands(n', copies, Unseen(b, true));
    case LagsBehind => assert Stands(n', copies, Unseen(0, true));
  }

  lemma PollSenderKeeps(n: Net, copies: seq<nat>)
    requires Inv(n, copies) && (Fires(n, PollSender) ==> MayFire(n))
    ensures Inv(Apply(n, PollSender), copies)
  {
    if n.sender.queue == [] {
      assert Apply(n, PollSender) == n;
    } else if n.sender.reliableState == -1 {
      PollResendsResetKeeps(n, copies);
    } else if Fires(n, PollSender) {
      PollFiresKeeps(n, copies);
    } else {
      PollSendsKeeps(n, copies);
    }
  }

  // ---- the receiver ----

  /** One delivery of the front message keeps the books. */
  lemma DeliverAccounts(n: Net, n': Net, copies: seq<nat>)
    requires Accounts(n, copies) && n.sender.queue != []
    requires n'.submitted == n.submitted && n'.popped == n.popped && n'.sender == n.sender
    requires n'.delivered == n.delivered + [n.sender.queue[0]]
    ensures var more := Bump(copies, |n.popped|);
            Accounts(n', more) && Ahead(n', more) == 1 && Extra(more) == Extra(copies) + Ahead(n, copies)
  {
    ExpandBump(n.submitted, copies, |n.popped|);
    assert n.submitted[|n.popped|] == n.sender.queue[0];
  }

  /** What a step of the receiver does to the channels. */
  lemma ForwardShifts(n: Net)
    requires Typed(n) && n.fwd != []
    ensures var n' := Forward(n);
            && Typed(n') && n'.sender == n.sender && n'.resets == n.resets && n'.submitted == n.submitted
                && n'.popped == n.popped
            && |n'.fwd| == |n.fwd| - 1 && (forall i | 0 <= i < |n'.fwd| :: n'.fwd[i] == n.fwd[i + 1])
            && |n'.bwd| == |n.bwd| + 1 && (forall i | 0 <= i < |n.bwd| :: n'.bwd[i] == n.bwd[i])
            && n'.bwd[|n.bwd|].packet == (if n.fwd[0].packet.Reliable?
                                          then Packet.Handshake(n.fwd[0].packet.bit, n.fwd[0].packet.stamp)
                                          else HandshakeReset(n.fwd[0].packet.stamp))
  {
  }

  lemma ForwardWaiting(n: Net, b: Bit, copies: seq<nat>) returns (more: seq<nat>)
    requires Inv(n, copies) && n.fwd != [] && Stands(n, copies, Waits(b))
    ensures Inv(Forward(n), more)
  {
    if Current(n.fwd[0].packet, b, n.sender.queue) {
      ForwardCurrent(n, b, copies);
      more := Bump(copies, |n.popped|);
    } else {
      ForwardStale(n, b, copies);
      more := copies;
    }
  }

  lemma ForwardCurrent(n: Net, b: Bit, copies: seq<nat>)
    requires Inv(n, copies) && n.fwd != [] && Stands(n, copies, Waits(b)) && Current(n.fwd[0].packet, b, n.sender.queue)
    ensures |n.popped| <= |copies| <= |n.popped| + 1 && Inv(Forward(n), Bump(copies, |n.popped|))
  {
    var n' := Forward(n);
    ForwardShifts(n);
    assert forall i | 0 <= i < |n.fwd| :: Current(n.fwd[i].packet, b, n.sender.queue);
    DeliverAccounts(n, n', copies);
    AcceptShifts(n, b);
    assert Stands(n', Bump(copies, |n.popped|), Accepts(b));
  }

  lemma AcceptShifts(n: Net, b: Bit)
    requires Typed(n) && n.fwd != [] && Waiting(n, b) && Leftover(n, b) && Current(n.fwd[0].packet, b, n.sender.queue)
    ensures Accepted(Forward(n), b) && Leftover(Forward(n), b)
  {
    ForwardShifts(n);
    assert forall i | 0 <= i < |n.fwd| :: Current(n.fwd[i].packet, b, n.sender.queue);
  }

  lemma ForwardStale(n: Net, b: Bit, copies: seq<nat>)
    requires Inv(n, copies) && n.fwd != [] && Stands(n, copies, Waits(b))
        && !Current(n.fwd[0].packet, b, n.sender.queue)
    ensures Inv(Forward(n), copies)
  {
    var n' := Forward(n);
    ForwardShifts(n);
    assert n'.delivered == n.delivered;
    WaitingShifts(n, b);
    assert Stands(n', copies, Waits(b));
  }

  /** A stale packet or a leftover RESET leaves the receiver waiting. */
  lemma WaitingShifts(n: Net, b: Bit)
    requires Typed(n) && n.fwd != [] && Waiting(n, b) && Leftover(n, b) && !Current(n.fwd[0].packet, b, n.sender.queue)
    ensures Waiting(Forward(n), b) && Leftover(Forward(n), b)
  {
    ForwardShifts(n);
  }

  lemma ForwardAccepted(n: Net, b: Bit, copies: seq<nat>)
    requires Inv(n, copies) && n.fwd != [] && Stands(n, copies, Accepts(b))
    ensures Inv(Forward(n), copies)
  {
    var n' := Forward(n);
    assert Current(n.fwd[0].packet, b, n.sender.queue);
    ForwardShifts(n);
    assert Stands(n', copies, Accepts(b));
  }

  /** The RESET that was left behind arrives, or a copy of the front message overtakes none. */
  lemma ForwardBehind(n: Net, copies: seq<nat>)
    requires Inv(n, copies) && n.fwd != [] && Stands(n, copies, LagsBehind)
    ensures Inv(Forward(n), copies)
  {
    var n' := Forward(n);
    ForwardShifts(n);
    if n.fwd[0].packet.ReliableReset? {
      assert Stands(n', copies, Waits(0));
    } else {
      assert forall i | 0 <= i < |n.fwd| :: Current(n.fwd[i].packet, 0, n.sender.queue);
      assert Stands(n', copies, Accepts(0));
    }
  }

  /** The first RESET of the round arrives. */
  lemma ForwardReset(n: Net, b: Bit, accepted: bool, copies: seq<nat>)
    requires Inv(n, copies) && n.fwd != [] && Stands(n, copies, Unseen(b, accepted)) && n.fwd[0].packet.ReliableReset?
    ensures Inv(Forward(n), copies)
  {
    var n' := Forward(n);
    ForwardShifts(n);
    assert forall i | 0 <= i < |n.fwd| :: n.fwd[i].packet.ReliableReset?;
    assert Stands(n', copies, Seen);
  }

  /** A packet sent before the reset arrives and is delivered. */
  lemma ForwardLate(n: Net, b: Bit, copies: seq<nat>) returns (more: seq<nat>)
    requires Inv(n, copies) && n.fwd != [] && Stands(n, copies, Unseen(b, false))
    requires Current(n.fwd[0].packet, b, n.sender.queue)
    ensures Inv(Forward(n), more)
  {
    var n' := Forward(n);
    assert CopyInFlight(n, b);
    LateShifts(n, b);
    DeliverAccounts(n, n', copies);
    more := Bump(copies, |n.popped|);
    assert Stands(n', more, Unseen(b, true));
  }

  lemma LateShifts(n: Net, b: Bit)
    requires Typed(n) && n.fwd != [] && ResetUnseen(n, b, false) && Current(n.fwd[0].packet, b, n.sender.queue)
    ensures Typed(Forward(n)) && ResetUnseen(Forward(n), b, true)
  {
    ForwardShifts(n);
  }

  /** A packet sent before the reset arrives and is refused. */
  lemma ForwardRefused(n: Net, b: Bit, accepted: bool, copies: seq<nat>)
    requires Inv(n, copies) && n.fwd != [] && Stands(n, copies, Unseen(b, accepted))
    requires !n.fwd[0].packet.ReliableReset? && (accepted || !Current(n.fwd[0].packet, b, n.sender.queue))
    ensures Inv(Forward(n), copies)
  {
    var n' := Forward(n);
    ForwardShifts(n);
    assert n'.delivered == n.delivered;
    assert ResetUnseen(n', b, accepted);
    assert Stands(n', copies, Unseen(b, accepted));
  }

  lemma ForwardUnseen(n: Net, b: Bit, accepted: bool, copies: seq<nat>) returns (more: seq<nat>)
    requires Inv(n, copies) && n.fwd != [] && Stands(n, copies, Unseen(b, accepted))
    ensures Inv(Forward(n), more)
  {
    more := copies;
    if n.fwd[0].packet.ReliableReset? {
      ForwardReset(n, b, accepted, copies);
    } else if Current(n.fwd[0].packet, b, n.sender.queue) && !accepted {
      more := ForwardLate(n, b, copies);
    } else {
      ForwardRefused(n, b, accepted, copies);
    }
  }

  /** Another RESET of the round arrives. */
  lemma ForwardSeen(n: Net, copies: seq<nat>)
    requires Inv(n, copies) && n.fwd != [] && (Stands(n, copies, Seen) || Stands(n, copies, Held))
    ensures Inv(Forward(n), copies)
  {
    var n' := Forward(n);
    ForwardShifts(n);
    assert Stands(n', copies, Seen);
  }

  lemma ForwardKeeps(n: Net, copies: seq<nat>) returns (more: seq<nat>)
    requires Inv(n, copies)
    ensures Inv(Apply(n, DeliverForward), more)
  {
    more := copies;
    if n.fwd != [] {
      var stage :| Stands(n, copies, stage);
      match stage
      case Waits(b) => more := ForwardWaiting(n, b, copies);
      case Accepts(b) => ForwardAccepted(n, b, copies);
      case LagsBehind => ForwardBehind(n, copies);
      case Unseen(b, accepted) => more := ForwardUnseen(n, b, accepted, copies);
      case Seen => ForwardSeen(n, copies);
      case Held => ForwardSeen(n, copies);
    }
  }

  // ---- the acknowledgement ----

  lemma ReplyShifts(n: Net)
    requires Typed(n) && n.bwd != []
    ensures var n' := Reply(n);
            && Typed(n') && n'.fwd == n.fwd && n'.entry == n.entry && n'.resets == n.resets
            && n'.submitted == n.submitted && n'.delivered == n.delivered
            && |n'.bwd| == |n.bwd| - 1 && (forall i | 0 <= i < |n'.bwd| :: n'.bwd[i] == n.bwd[i + 1])
  {
  }

  /** A handshake taken at bit b: it pops the front message if it acknowledges it, and otherwise changes nothing. */
  lemma ReplyNormal(n: Net, b: Bit, copies: seq<nat>)
    requires Inv(n, copies) && n.bwd != [] && n.sender.reliableState == b
    ensures Inv(Reply(n), copies)
  {
    var p := n.bwd[0].packet;
    if Acks(p, b) && n.now >= p.stamp {
      ReplyAcks(n, b, copies);
    } else {
      ReplyIgnored(n, b, copies);
    }
  }

  lemma ReplyAcks(n: Net, b: Bit, copies: seq<nat>)
    requires Inv(n, copies) && n.bwd != [] && n.sender.reliableState == b
    requires Acks(n.bwd[0].packet, b) && n.now >= n.bwd[0].packet.stamp
    ensures Inv(Reply(n), copies)
  {
    var n' := Reply(n);
    ReplyShifts(n);
    var stage :| Stands(n, copies, stage);
    assert stage == Accepts(b);
    assert forall i | 0 <= i < |n.bwd| :: Acks(n.bwd[i].packet, b);
    assert n'.sender.queue == n.sender.queue[1..] && n'.sender.reliableState == Flip(b);
    assert n'.popped + n'.sender.queue == n.popped + n.sender.queue;
    assert Quiet(n') && Waiting(n', Flip(b));
    assert Stands(n', copies, Waits(Flip(b)));
  }

  lemma ReplyIgnored(n: Net, b: Bit, copies: seq<nat>)
    requires Inv(n, copies) && n.bwd != [] && n.sender.reliableState == b
    requires !(Acks(n.bwd[0].packet, b) && n.now >= n.bwd[0].packet.stamp)
    ensures Inv(Reply(n), copies)
  {
    var n' := Reply(n);
    ReplyShifts(n);
    assert n'.sender.queue == n.sender.queue && n'.sender.reliableState == b && n'.popped == n.popped;
    var stage :| Stands(n, copies, stage);
    assert Leftover(n, b) ==> Leftover(n', b);
    assert Stands(n', copies, stage);
  }

  lemma ReplyResetting(n: Net, copies: seq<nat>)
    requires Inv(n, copies) && n.bwd != [] && n.sender.reliableState == -1
    ensures Inv(Reply(n), copies)
  {
    var n' := Reply(n);
    var p := n.bwd[0].packet;
    ReplyShifts(n);
    var stage :| Stands(n, copies, stage);
    if p.HandshakeReset? && n.now >= p.stamp {
      ReplyReleases(n, copies, stage);
    } else {
      assert n'.sender.queue == n.sender.queue && n'.popped == n.popped;
      assert Stands(n', copies, stage);
    }
  }

  /** The HANDSHAKE_RESET that ends a reset round. */
  lemma ReplyReleases(n: Net, copies: seq<nat>, stage: Stage)
    requires Inv(n, copies) && n.bwd != [] && n.sender.reliableState == -1 && Stands(n, copies, stage)
    requires n.bwd[0].packet.HandshakeReset? && n.now >= n.bwd[0].packet.stamp
    ensures Inv(Reply(n), copies)
  {
    var n' := Reply(n);
    ReplyShifts(n);
    assert n'.sender.queue == n.sender.queue && n'.popped == n.popped;
    if stage == Held {
      assert Stands(n', copies, LagsBehind);
    } else {
      assert Stands(n', copies, Waits(0));
    }
  }

  lemma ReplyKeeps(n: Net, copies: seq<nat>)
    requires Inv(n, copies)
    ensures Inv(Apply(n, DeliverReply), copies)
  {
    if n.bwd != [] {
      if n.sender.reliableState == -1 {
        ReplyResetting(n, copies);
      } else {
        ReplyNormal(n, n.sender.reliableState, copies);
      }
    }
  }

  // ---- the channels ----

  /** `t` holds elements of `s` in the order of `s`: what loss and duplication in place leave. */
  ghost predicate Picks<T>(s: seq<T>, t: seq<T>, from: seq<int>) {
    && |from| == |t|
    && (forall i | 0 <= i < |t| :: 0 <= from[i] < |s| && t[i] == s[from[i]])
    && (forall i, j | 0 <= i < j < |t| :: from[i] <= from[j])
  }

  lemma RemovePicks<T>(s: seq<T>, i: nat) returns (from: seq<int>)
    ensures Picks(s, RemoveAt(s, i), from)
  {
    from := seq(|RemoveAt(s, i)|, j => if j < i then j else if i < |s| then j + 1 else j);
  }

  lemma DuplicatePicks<T>(s: seq<T>, i: nat) returns (from: seq<int>)
    ensures Picks(s, DuplicateAt(s, i), from)
  {
    from := seq(|DuplicateAt(s, i)|, j => if j <= i || i >= |s| then j else j - 1);
  }

  lemma ThinForward(n: Net, n': Net, from: seq<int>, copies: seq<nat>)
    requires Inv(n, copies) && n' == n.(fwd := n'.fwd) && Picks(n.fwd, n'.fwd, from)
    ensures Inv(n', copies)
  {
    var stage :| Stands(n, copies, stage);
    match stage {
      case Unseen(b, accepted) => ThinUnseen(n, n', from, b, accepted);
      case Waits(b) => ThinLeftover(n, n', from, b);
      case Accepts(b) => ThinLeftover(n, n', from, b);
      case _ =>
    }
    assert Stands(n', copies, stage);
  }

  lemma ThinUnseen(n: Net, n': Net, from: seq<int>, b: Bit, accepted: bool)
    requires n' == n.(fwd := n'.fwd) && Picks(n.fwd, n'.fwd, from) && ResetUnseen(n, b, accepted)
    ensures ResetUnseen(n', b, accepted) && (CopyInFlight(n', b) ==> CopyInFlight(n, b))
  {
  }

  lemma ThinLeftover(n: Net, n': Net, from: seq<int>, b: Bit)
    requires n' == n.(fwd := n'.fwd) && Picks(n.fwd, n'.fwd, from)
    ensures Leftover(n, b) ==> Leftover(n', b)
    ensures Waiting(n, b) ==> Waiting(n', b)
  {
  }

  lemma ThinReply(n: Net, n': Net, from: seq<int>, copies: seq<nat>)
    requires Inv(n, copies) && n' == n.(bwd := n'.bwd) && Picks(n.bwd, n'.bwd, from)
    ensures Inv(n', copies)
  {
    var stage :| Stands(n, copies, stage);
    if n.sender.reliableState != -1 {
      assert Leftover(n, n.sender.reliableState) ==> Leftover(n', n.sender.reliableState);
    }
    assert Stands(n', copies, stage);
  }

  lemma TickKeeps(n: Net, t: int, copies: seq<nat>)
    requires Inv(n, copies)
    ensures Inv(Apply(n, Tick(t)), copies)
  {
    var stage :| Stands(n, copies, stage);
    assert Stands(Apply(n, Tick(t)), copies, stage);
  }

  /** Every step keeps the invariant, a reset being fired only when it may. */
  lemma StepKeeps(n: Net, step: Step, copies: seq<nat>) returns (more: seq<nat>)
    requires Inv(n, copies) && (Fires(n, step) ==> MayFire(n))
    ensures Inv(Apply(n, step), more)
  {
    more := copies;
    match step
    case Submit(m) => SubmitKeeps(n, m, copies);
    case Tick(t) => TickKeeps(n, t, copies);
    case PollSender => PollSenderKeeps(n, copies);
    case DeliverForward => more := ForwardKeeps(n, copies);
    case DeliverReply => ReplyKeeps(n, copies);
    case LoseForward(i) => var from := RemovePicks(n.fwd, i); ThinForward(n, Apply(n, step), from, copies);
    case LoseReply(i) => var from := RemovePicks(n.bwd, i); ThinReply(n, Apply(n, step), from, copies);
    case DuplicateForward(i) => var from := DuplicatePicks(n.fwd, i); ThinForward(n, Apply(n, step), from, copies);
    case DuplicateReply(i) => var from := DuplicatePicks(n.bwd, i); ThinReply(n, Apply(n, step), from, copies);
  }

  lemma {:induction false} RunKeepsInv(n: Net, steps: seq<Step>, copies: seq<nat>) returns (more: seq<nat>)
    requires Inv(n, copies) && Guarded(n, steps)
    ensures Inv(Run(n, steps), more)
    decreases |steps|
  {
    more := copies;
    if steps != [] {
      more := StepKeeps(n, steps[0], copies);
      more := RunKeepsInv(Apply(n, steps[0]), steps[1..], more);
    }
  }

  lemma {:induction false} RunConcat(n: Net, steps: seq<Step>, more: seq<Step>)
    ensures Run(n, steps + more) == Run(Run(n, steps), more)
    ensures Guarded(n, steps + more) <==> Guarded(n, steps) && Guarded(Run(n, steps), more)
    decreases |steps|
  {
    if steps == [] {
      assert steps + more == more;
    } else {
      assert (steps + more)[1..] == steps[1..] + more;
      RunConcat(Apply(n, steps[0]), steps[1..], more);
    }
  }

  lemma OneStep(n: Net, step: Step)
    requires Fires(n, step) ==> MayFire(n)
    ensures Guarded(n, [step]) && Run(n, [step]) == Apply(n, step)
    ensures Apply(n, step).resets == n.resets + if Fires(n, step) then 1 else 0
  {
    assert [step][1..] == [] && [step][0] == step;
    assert Guarded(Apply(n, step), []) && Run(Apply(n, step), []) == Apply(n, step);
  }

  /** One more step of a run under construction. */
  lemma Then(n: Net, steps: seq<Step>, m: Net, step: Step) returns (steps': seq<Step>, m': Net)
    requires m == Run(n, steps)
    ensures steps' == steps + [step] && m' == Apply(m, step) && m' == Run(n, steps')
    ensures Guarded(n, steps') <==> Guarded(n, steps) && (Fires(m, step) ==> MayFire(m))
  {
    RunConcat(n, steps, [step]);
    assert [step][1..] == [];
    return steps + [step], Apply(m, step);
  }

  // ---- main results ----

  /** What a reader of the documentation may rely on: nothing lost, nothing reordered, and every message of
      the delivered prefix delivered at least once, repeats following each other. */
  ghost predicate InOrder(n: Net, copies: seq<nat>) {
    && n.submitted == n.popped + n.sender.queue
    && |n.popped| <= |copies| <= |n.popped| + 1 && |copies| <= |n.submitted|
    && AtLeastOnce(copies)
    && n.delivered == Expand(n.submitted, copies)
    && 0 <= Extra(copies) <= n.resets
  }

  lemma InvInOrder(n: Net, copies: seq<nat>)
    requires Inv(n, copies)
    ensures InOrder(n, copies)
  {
    ExtraBounds(copies);
  }

  /** With resets: no message lost or reordered, at most one extra copy in all per reset fired. */
  lemma InOrderWithResets(n: Net, steps: seq<Step>) returns (copies: seq<nat>)
    requires Fresh(n) && n.entry != Some(1) && Guarded(n, steps)
    ensures InOrder(Run(n, steps), copies)
  {
    FreshInv(n);
    copies := RunKeepsInv(n, steps, []);
    InvInOrder(Run(n, steps), copies);
  }

  /** Received once and in order. */
  ghost predicate ExactlyOnce(n: Net) {
    && n.submitted == n.popped + n.sender.queue
    && (n.delivered == n.popped || (n.sender.queue != [] && n.delivered == n.popped + [n.sender.queue[0]]))
  }

  lemma {:induction false} ResetsGrow(n: Net, steps: seq<Step>)
    ensures n.resets <= Run(n, steps).resets
    ensures Run(n, steps).resets == n.resets ==> Guarded(n, steps)
    decreases |steps|
  {
    if steps != [] {
      var n1 := Apply(n, steps[0]);
      assert n.resets <= n1.resets && (Fires(n, steps[0]) ==> n1.resets == n.resets + 1);
      ResetsGrow(n1, steps[1..]);
    }
  }

  lemma InOrderExactlyOnce(n: Net, copies: seq<nat>)
    requires InOrder(n, copies) && n.resets == 0
    ensures ExactlyOnce(n)
  {
    ExpandOnce(n.submitted, copies);
    if |copies| == |n.popped| {
      assert n.submitted[..|copies|] == n.popped;
    } else {
      assert n.submitted[..|copies|] == n.popped + [n.sender.queue[0]];
    }
  }

  /** Without a reset: exactly once, in order, over every FIFO channel that may lose and duplicate in place. */
  lemma DeliveredExactlyOnce(n: Net, steps: seq<Step>)
    requires Fresh(n) && n.entry != Some(1) && Run(n, steps).resets == 0
    ensures ExactlyOnce(Run(n, steps))
  {
    ResetsGrow(n, steps);
    var copies := InOrderWithResets(n, steps);
    InOrderExactlyOnce(Run(n, steps), copies);
  }
}
