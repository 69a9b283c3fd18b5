// The documented promise, for whole servers.

module World {
  import opened Bytes
  import opened Message
  import opened Client
  import opened ServerSpec
  import opened Protocol
  import opened Repetition
  import opened Runs
  import opened IndexTables
  import opened Newcomers
  import opened Connected
  import opened Link
  import opened LinkReply
  import opened LinkReceiver
  import opened LinkChannels
  import Sessions

  // Two of them, any calls on either, any traffic with other peers, and two channels of datagrams that keep their order
  // but may lose and duplicate.

  datatype Move<R> =
    | CallA(call: Call<R>)
    | CallB(call: Call<R>)
    | TakeA
    | TakeB
    | CarryAB
    | CarryBA
    | DropAB(i: nat)
    | DropBA(i: nat)
    | CopyAB(i: nat)
    | CopyBA(i: nat)

  /** The move is a poll of A that gives up waiting and begins a reset round for `r`. */
  ghost predicate Resets<R>(w: World<R>, r: R, move: Move<R>) {
    && WF(w.a) && move.CallA? && move.call.Process? && Legal(w.a, move.call)
    && PollBeginsRound(w.a, r, move.call.order, move.call.time)
  }

  /** The message in hand was handed over before, or a copy of it is anywhere on its way. */
  ghost predicate AtRisk<R>(w: World<R>, r: R) {
    && r in w.a.heap
    && var c := w.a.heap[r];
       && c.queue != [] && c.reliableState != -1
       && (c.queue[0] in w.delivered || exists p <- Forwards(w) :: Current(p, c.reliableState, c.queue))
  }

  /** No reset traffic of the pair is anywhere on its way. */
  ghost predicate Calm<R>(w: World<R>) {
    (forall p <- Forwards(w) :: !p.ReliableReset?) && (forall p <- Backwards(w) :: !p.HandshakeReset?)
  }

  /** No copy of the message in hand is anywhere on its way, and no acknowledgement of it. */
  ghost predicate NothingInHand<R>(w: World<R>, c: ClientState)
    requires c.reliableState != -1
  {
    && (forall p <- Forwards(w) :: !Current(p, c.reliableState, c.queue))
    && (forall p <- Backwards(w) :: !Acks(p, c.reliableState))
  }

  /** A reset round may begin: the traffic of the last one is gone, or nothing of the message in hand is on its way. */
  ghost predicate MayReset<R>(w: World<R>, r: R) {
    r in w.a.heap && (w.a.heap[r].reliableState != -1 ==> Calm(w) || NothingInHand(w, w.a.heap[r]))
  }

  /** What may happen: legal calls, `r` not disconnected, only the channels deliver datagrams between the pair, no other
      connection of A to the same peer completed, and a reset round begun only when it may. */
  ghost predicate Permitted<R>(w: World<R>, r: R, move: Move<R>)
    requires WF(w.a) && WF(w.b) && r in w.a.heap
  {
    match move
    case CallA(call) =>
      && Legal(w.a, call) && NoRival(After(w.a, call), w.addressB) && (Resets(w, r, move) ==> MayReset(w, r))
      && (call.Drop? ==> call.id != w.a.heap[r].id) && (call.Arrive? ==> call.d.address != w.addressB)
    case CallB(call) => Legal(w.b, call) && (call.Arrive? ==> call.d.address != w.addressA)
    case CarryAB => w.ab != []
    case CarryBA => w.ba != []
    case _ => true
  }

  ghost function Moved<R>(w: World<R>, r: R, move: Move<R>): World<R>
    requires WF(w.a) && WF(w.b) && r in w.a.heap && Permitted(w, r, move)
  {
    match move
    case CallA(call) => w.(a := After(w.a, call).s, pushed := w.pushed + Submitted(w.a, r, call))
    case CallB(call) =>
      var o := After(w.b, call);
      w.(b := o.s, delivered := w.delivered + Handed(o.event, w.addressA))
    case TakeA => w.(a := w.a.(outbox := []), ab := w.ab + At(w.a.outbox, w.addressB))
    case TakeB => w.(b := w.b.(outbox := []), ba := w.ba + At(w.b.outbox, w.addressA))
    case CarryAB => w.(b := w.b.(inbox := w.b.inbox + [Datagram(w.addressA, w.ab[0])]), ab := w.ab[1..])
    case CarryBA => w.(a := w.a.(inbox := w.a.inbox + [Datagram(w.addressB, w.ba[0])]), ba := w.ba[1..])
    case DropAB(i) => w.(ab := RemoveAt(w.ab, i))
    case DropBA(i) => w.(ba := RemoveAt(w.ba, i))
    case CopyAB(i) => w.(ab := DuplicateAt(w.ab, i))
    case CopyBA(i) => w.(ba := DuplicateAt(w.ba, i))
  }

  // ---- one move ----

  lemma MayResetMayFire<R>(w: World<R>, r: R, n: Net)
    requires Mirrors(w, r, n) && MayReset(w, r)
    ensures MayFire(n)
  {
    assert forall i | 0 <= i < |n.fwd| :: n.fwd[i].packet == Packets(n.fwd)[i];
    assert forall i | 0 <= i < |n.bwd| :: n.bwd[i].packet == Packets(n.bwd)[i];
  }

  /** The pair: `r` is A's one client connected to B. */
  ghost predicate Sound<R>(w: World<R>, r: R) {
    Paired(w.a, r, w.addressB) && WF(w.b)
  }

  lemma PollMoveMirrors<R>(w: World<R>, r: R, n: Net, order: seq<uint32>, time: int) returns (steps: seq<Step>)
    requires Paired(w.a, r, w.addressB) && Mirrors(w, r, n)
    requires Visits(order, w.a.byId.Keys) && (PollBeginsRound(w.a, r, order, time) ==> MayReset(w, r))
    ensures Guarded(n, steps) && Mirrors(w.(a := ProcessEvents(w.a, order, time).s), r, Run(n, steps))
    ensures Run(n, steps).resets <= n.resets + if PollBeginsRound(w.a, r, order, time) then 1 else 0
    ensures PollBeginsRound(w.a, r, order, time) ==> Careful(n, steps)
  {
    var m := Apply(n, Tick(time));
    if PollBeginsRound(w.a, r, order, time) {
      MayResetMayFire(w, r, m);
    }
    var more := ProcessMirrors(w, r, m, order, time);
    OneStep(n, Tick(time));
    OneRisk(n, Tick(time));
    RunConcat(n, [Tick(time)], more);
    RisksConcat(n, [Tick(time)], more);
    assert OutThere(m) ==> OutThere(n);
    steps := [Tick(time)] + more;
  }

  lemma OutThereAtRisk<R>(w: World<R>, r: R, n: Net)
    requires Mirrors(w, r, n) && OutThere(n)
    ensures AtRisk(w, r)
  {
    if CopyInFlight(n, n.sender.reliableState) {
      var i :| 0 <= i < |n.fwd| && Current(n.fwd[i].packet, n.sender.reliableState, n.sender.queue);
      assert Packets(n.fwd)[i] in Forwards(w);
    }
  }

  lemma CallAMirrors<R>(w: World<R>, r: R, n: Net, call: Call<R>) returns (steps: seq<Step>)
    requires Sound(w, r) && Mirrors(w, r, n) && Permitted(w, r, CallA(call)) && !call.Process?
    ensures Follows(Moved(w, r, CallA(call)), r, n, steps, 0)
  {
    if Submitted(w.a, r, call) == [] {
      CallUnseen(w.a, r, call, w.addressB, w.b.signature);
      UnseenAMirrors(w, After(w.a, call).s, r, n);
      NothingHanded(w.pushed);
      assert Moved(w, r, CallA(call)) == w.(a := After(w.a, call).s);
      steps := [];
      NoSteps(Moved(w, r, CallA(call)), r, n);
    } else {
      SubmitMirrors(w, r, n, call.data);
      steps := [Submit(call.data)];
    }
  }

  lemma CallUnseenB<R>(s: Server<R>, call: Call<R>, peer: Address, peerSignature: Signature)
    requires WF(s) && Legal(s, call) && !call.Process? && (call.Arrive? ==> call.d.address != peer)
    ensures UnseenB(s, After(s, call).s, peer, peerSignature) && Handed(After(s, call).event, peer) == []
  {
    match call
    case PushUnreliable(id, data) =>
      if SendUnreliable(s, id, data).0 != s {
        SendUnseenB(s, After(s, call).s, s.heap[s.byId[id]].outgoing, Unreliable(data), s.prefix, peer, peerSignature);
      }
    case Arrive(d) =>
      GotAppend(s.signature, true, s.inbox, [d], peer);
      GotOne(s.signature, true, d, peer);
    case _ =>
  }

  lemma CallBMirrors<R>(w: World<R>, r: R, n: Net, call: Call<R>) returns (steps: seq<Step>)
    requires WF(w.a) && WF(w.b) && Mirrors(w, r, n) && Permitted(w, r, CallB(call))
    ensures Follows(Moved(w, r, CallB(call)), r, n, steps, 0)
  {
    if call.Process? {
      steps := ProcessMirrorsB(w, r, n, call.order, call.time);
    } else {
      CallUnseenB(w.b, call, w.addressA, w.a.signature);
      UnseenBMirrors(w, After(w.b, call).s, r, n);
      NothingHanded(w.delivered);
      assert Moved(w, r, CallB(call)) == w.(b := After(w.b, call).s);
      steps := [];
      NoSteps(Moved(w, r, CallB(call)), r, n);
    }
  }

  /** Every move is a run of the protocol. */
  lemma MoveMirrors<R>(w: World<R>, r: R, n: Net, move: Move<R>) returns (steps: seq<Step>)
    requires Sound(w, r) && Mirrors(w, r, n) && Permitted(w, r, move)
    ensures Guarded(n, steps) && Mirrors(Moved(w, r, move), r, Run(n, steps))
    ensures Run(n, steps).resets <= n.resets + if Resets(w, r, move) then 1 else 0
    ensures Resets(w, r, move) ==> Careful(n, steps)
  {
    steps := [];
    match move
    case CallA(call) =>
      if call.Process? {
        steps := PollMoveMirrors(w, r, n, call.order, call.time);
        NothingHanded(w.pushed);
        assert Moved(w, r, move) == w.(a := ProcessEvents(w.a, call.order, call.time).s);
      } else {
        steps := CallAMirrors(w, r, n, call);
      }
    case CallB(call) => steps := CallBMirrors(w, r, n, call);
    case TakeA => TakeAMirrors(w, r, n);
    case TakeB => TakeBMirrors(w, r, n);
    case CarryAB => CarryABMirrors(w, r, n);
    case CarryBA => CarryBAMirrors(w, r, n);
    case DropAB(i) => steps := DropABMirrors(w, r, n, i);
    case DropBA(i) => steps := DropBAMirrors(w, r, n, i);
    case CopyAB(i) => steps := CopyABMirrors(w, r, n, i);
    case CopyBA(i) => steps := CopyBAMirrors(w, r, n, i);
  }

  lemma MovedSound<R>(w: World<R>, r: R, move: Move<R>)
    requires Sound(w, r) && Permitted(w, r, move)
    ensures Sound(Moved(w, r, move), r)
  {
    match move
    case CallA(call) => CallPaired(w.a, r, call, w.addressB);
    case CallB(call) => CallWF(w.b, call);
    case _ =>
  }

  // ---- runs ----

  /** A run of the world: what happened, and the world before and after each move. */
  datatype Journey<R(==)> = Journey(worlds: seq<World<R>>, moves: seq<Move<R>>)

  ghost predicate Happens<R>(w: World<R>, r: R, move: Move<R>, w': World<R>) {
    Sound(w, r) && Permitted(w, r, move) && w' == Moved(w, r, move)
  }

  ghost predicate HappensAt<R>(j: Journey<R>, r: R, i: int) {
    |j.worlds| == |j.moves| + 1 && 0 <= i < |j.moves| && Happens(j.worlds[i], r, j.moves[i], j.worlds[i + 1])
  }

  ghost predicate Journeys<R>(j: Journey<R>, r: R) {
    |j.worlds| == |j.moves| + 1 && forall i | 0 <= i < |j.moves| :: HappensAt(j, r, i)
  }

  function Last<R>(j: Journey<R>): World<R>
    requires j.worlds != []
  {
    j.worlds[|j.worlds| - 1]
  }

  /** At how many of the first `k` moves a poll began a reset round. */
  ghost function Rounds<R>(j: Journey<R>, r: R, k: nat): nat
    requires k <= |j.moves| <= |j.worlds|
  {
    if k == 0 then 0
    else
      Rounds(j, r, k - 1) + if Resets(j.worlds[k - 1], r, j.moves[k - 1]) then 1 else 0
  }

  /** And at how many of them with the message in hand at risk of being handed over again. */
  ghost function RiskyRounds<R>(j: Journey<R>, r: R, k: nat): (n: nat)
    requires k <= |j.moves| <= |j.worlds|
    ensures n <= Rounds(j, r, k)
  {
    if k == 0 then 0
    else
      var w := j.worlds[k - 1];
      RiskyRounds(j, r, k - 1) + if Resets(w, r, j.moves[k - 1]) && AtRisk(w, r) then 1 else 0
  }

  lemma MoveRisks<R>(w: World<R>, r: R, n: Net, steps: seq<Step>, rounds: bool)
    requires Mirrors(w, r, n) && Run(n, steps).resets <= n.resets + (if rounds then 1 else 0)
    requires rounds ==> Careful(n, steps)
    ensures Risks(n, steps) <= if rounds && AtRisk(w, r) then 1 else 0
  {
    RisksAreRounds(n, steps);
    if OutThere(n) {
      OutThereAtRisk(w, r, n);
    }
  }

  lemma MoveCounts<R>(w: World<R>, r: R, n: Net, move: Move<R>) returns (steps: seq<Step>)
    requires Sound(w, r) && Mirrors(w, r, n) && Permitted(w, r, move)
    ensures Guarded(n, steps) && Mirrors(Moved(w, r, move), r, Run(n, steps))
    ensures Run(n, steps).resets <= n.resets + if Resets(w, r, move) then 1 else 0
    ensures Risks(n, steps) <= if Resets(w, r, move) && AtRisk(w, r) then 1 else 0
  {
    steps := MoveMirrors(w, r, n, move);
    MoveRisks(w, r, n, steps, Resets(w, r, move));
  }

  /** Two servers, seen from one connected client and its peer, run the protocol. */
  lemma {:induction false} WorldRunsProtocol<R>(j: Journey<R>, r: R, n: Net, k: nat) returns (steps: seq<Step>)
    requires Journeys(j, r) && k <= |j.moves| && Mirrors(j.worlds[0], r, n)
    ensures Guarded(n, steps) && Mirrors(j.worlds[k], r, Run(n, steps))
    ensures Run(n, steps).resets <= n.resets + Rounds(j, r, k) && Risks(n, steps) <= RiskyRounds(j, r, k)
    decreases k
  {
    steps := [];
    if k != 0 {
      steps := WorldRunsProtocol(j, r, n, k - 1);
      assert HappensAt(j, r, k - 1);
      var more := MoveCounts(j.worlds[k - 1], r, Run(n, steps), j.moves[k - 1]);
      RunConcat(n, steps, more);
      RisksConcat(n, steps, more);
      steps := steps + more;
    }
  }

  /** What `Happens` asks of the pair before each move also holds after the last one. */
  lemma JourneySound<R>(j: Journey<R>, r: R)
    requires Journeys(j, r) && j.moves != []
    ensures Sound(Last(j), r)
  {
    var k := |j.moves| - 1;
    assert HappensAt(j, r, k);
    MovedSound(j.worlds[k], r, j.moves[k]);
  }

  /** A client of A that has sent nothing yet, and no reliable traffic of the pair in flight. */
  ghost predicate Idle<R>(w: World<R>, r: R) {
    && r in w.a.heap && Unsent(w.a.heap[r]) && Forwards(w) == [] && Backwards(w) == []
    && w.pushed == [] && w.delivered == []
  }

  /** And B's entry for A is not 1: the address is new to B, or its last session ended on even terms. */
  ghost predicate Begins<R>(w: World<R>, r: R) {
    Idle(w, r) && EntryOf(w.b.reliableStates, w.addressA) != Some(1)
  }

  /** Where such a pair comes from: after any run of a new server, whoever completed its connections from where, a poll
      that completes one from the address the client sends to, with no other connected client sending there, pairs
      the two. The client is idle, as soon as no reliable traffic of an earlier session of the two addresses is left. */
  lemma SuccessIsIdlePair<R>(s: Server<R>, calls: seq<Call<R>>, order: seq<uint32>, time: int, w: World<R>)
    requires NewServer(s) && Lawful(s, calls) && Visits(order, Final(s, NO_HISTORY, calls).0.byId.Keys)
    requires var t := Final(s, NO_HISTORY, calls).0;
             var o := ProcessEvents(t, order, time);
             && IsSuccess(o.event) && w.a == o.s && WF(w.b)
             && forall id <- t.byId :: t.heap[t.byId[id]].outgoing != w.addressB
    requires Forwards(w) == [] && Backwards(w) == [] && w.pushed == [] && w.delivered == []
    ensures var o := ProcessEvents(Final(s, NO_HISTORY, calls).0, order, time);
            var id := o.event.value.id;
            && id in o.s.byId && o.s.byId[id] in o.s.heap
            && (o.s.heap[o.s.byId[id]].outgoing == w.addressB
                && w.addressB in o.s.byAddress && o.s.byAddress[w.addressB] == o.s.byId[id]
                ==> Sound(w, o.s.byId[id]) && Idle(w, o.s.byId[id]))
  {
    IdsAlways(s, calls);
    RunApart(s, NO_HISTORY, calls);
    var t := Final(s, NO_HISTORY, calls).0;
    SuccessStartsFresh(s, calls, order, time);
    PollPairs(t, order, time, w.addressB);
  }

  function NetOf<R>(w: World<R>, r: R): Net
    requires r in w.a.heap
  {
    Net(w.a.heap[r], EntryOf(w.b.reliableStates, w.addressA), [], [], 0, [], [], [], 0)
  }

  /** The messages A's side has seen acknowledged: what was handed over and is no longer queued. */
  function Acknowledged(pushed: seq<Msg>, queue: seq<Msg>): seq<Msg> {
    if |queue| <= |pushed| then pushed[..|pushed| - |queue|] else []
  }

  /** What the two callers see: nothing lost, nothing reordered, every acknowledged message delivered, and `extra`
      consecutive copies at most. */
  ghost predicate DeliveredInOrder(pushed: seq<Msg>, queue: seq<Msg>, delivered: seq<Msg>, copies: seq<nat>,
          extra: nat) {
    var acked := Acknowledged(pushed, queue);
    && pushed == acked + queue
    && |acked| <= |copies| <= |acked| + 1 && |copies| <= |pushed| && AtLeastOnce(copies)
    && delivered == Expand(pushed, copies)
    && 0 <= Extra(copies) <= extra
  }

  /** Received once and in order: the acknowledged messages, or those and the one in hand. */
  ghost predicate DeliveredOnce(pushed: seq<Msg>, queue: seq<Msg>, delivered: seq<Msg>) {
    var acked := Acknowledged(pushed, queue);
    pushed == acked + queue && (delivered == acked || (queue != [] && delivered == acked + [queue[0]]))
  }

  lemma AcknowledgedPart(popped: seq<Msg>, queue: seq<Msg>)
    ensures Acknowledged(popped + queue, queue) == popped
  {
  }

  lemma InOrderSeen(n: Net, copies: seq<nat>)
    requires InOrder(n, copies)
    ensures DeliveredInOrder(n.submitted, n.sender.queue, n.delivered, copies, n.resets)
  {
    AcknowledgedPart(n.popped, n.sender.queue);
  }

  lemma NoExtraIsOnce(pushed: seq<Msg>, queue: seq<Msg>, delivered: seq<Msg>, copies: seq<nat>)
    requires DeliveredInOrder(pushed, queue, delivered, copies, 0)
    ensures DeliveredOnce(pushed, queue, delivered)
  {
    var acked := Acknowledged(pushed, queue);
    ExpandOnce(pushed, copies);
    if |copies| == |acked| {
      assert pushed[..|copies|] == acked;
    } else {
      assert pushed[..|copies|] == acked + [queue[0]];
    }
  }

  /** With reset rounds: in order, without loss, at most one extra copy per round begun with the message in hand at
      risk. */
  lemma WorldInOrder<R>(j: Journey<R>, r: R) returns (copies: seq<nat>)
    requires Journeys(j, r) && Begins(j.worlds[0], r)
    ensures var e := Last(j);
            && r in e.a.heap
            && DeliveredInOrder(e.pushed, e.a.heap[r].queue, e.delivered, copies, RiskyRounds(j, r, |j.moves|))
  {
    var n := NetOf(j.worlds[0], r);
    var steps := WorldRunsProtocol(j, r, n, |j.moves|);
    copies := InOrderWithRisks(n, steps);
    InOrderSeen(Run(n, steps).(resets := Risks(n, steps)), copies);
  }

  /** Received once and in order, byte for byte, when no reset round begins with the message in hand at risk. */
  lemma WorldExactlyOnce<R>(j: Journey<R>, r: R)
    requires Journeys(j, r) && Begins(j.worlds[0], r) && RiskyRounds(j, r, |j.moves|) == 0
    ensures var e := Last(j);
            r in e.a.heap && DeliveredOnce(e.pushed, e.a.heap[r].queue, e.delivered)
  {
    var copies := WorldInOrder(j, r);
    var e := Last(j);
    NoExtraIsOnce(e.pushed, e.a.heap[r].queue, e.delivered, copies);
  }

  /** Whatever entry earlier sessions left behind. With an entry of 1 the first message is acknowledged and never
      delivered, and every later one is delivered once and in order. */
  lemma WorldNewSession<R>(j: Journey<R>, r: R)
    requires Journeys(j, r) && Idle(j.worlds[0], r) && Rounds(j, r, |j.moves|) == 0
    ensures var e := Last(j);
            && r in e.a.heap
            && if EntryOf(j.worlds[0].b.reliableStates, j.worlds[0].addressA) == Some(1)
               then DeliveredButFirst(e.pushed, e.a.heap[r].queue, e.delivered)
               else DeliveredOnce(e.pushed, e.a.heap[r].queue, e.delivered)
  {
    if EntryOf(j.worlds[0].b.reliableStates, j.worlds[0].addressA) == Some(1) {
      WorldSkipsFirst(j, r);
    } else {
      WorldExactlyOnce(j, r);
    }
  }

  lemma WorldSkipsFirst<R>(j: Journey<R>, r: R)
    requires Journeys(j, r) && Idle(j.worlds[0], r) && Rounds(j, r, |j.moves|) == 0
    requires EntryOf(j.worlds[0].b.reliableStates, j.worlds[0].addressA) == Some(1)
    ensures var e := Last(j);
            r in e.a.heap && DeliveredButFirst(e.pushed, e.a.heap[r].queue, e.delivered)
  {
    var n, steps := IdleRuns(j, r);
    if Run(n, steps).resets == 0 {
      ButFirstSeen(n, steps);
    }
  }

  lemma IdleRuns<R>(j: Journey<R>, r: R) returns (n: Net, steps: seq<Step>)
    requires Journeys(j, r) && Idle(j.worlds[0], r)
    ensures Fresh(n) && n.entry == EntryOf(j.worlds[0].b.reliableStates, j.worlds[0].addressA)
    ensures Mirrors(Last(j), r, Run(n, steps)) && Run(n, steps).resets <= Rounds(j, r, |j.moves|)
  {
    n := NetOf(j.worlds[0], r);
    steps := WorldRunsProtocol(j, r, n, |j.moves|);
  }

  ghost predicate DeliveredButFirst(pushed: seq<Msg>, queue: seq<Msg>, delivered: seq<Msg>) {
    var acked := Acknowledged(pushed, queue);
    && pushed == acked + queue
    && if acked == [] then delivered == []
       else delivered == acked[1..] || (queue != [] && delivered == acked[1..] + [queue[0]])
  }

  lemma ButFirstSeen(n: Net, steps: seq<Step>)
    requires Fresh(n) && n.entry == Some(1) && Run(n, steps).resets == 0
    ensures var m := Run(n, steps); DeliveredButFirst(m.submitted, m.sender.queue, m.delivered)
  {
    Sessions.NewSession(n, steps);
    AcknowledgedPart(Run(n, steps).popped, Run(n, steps).sender.queue);
  }
}
