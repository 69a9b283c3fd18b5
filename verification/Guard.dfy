// When a reset may fire (src/UdcServer.cpp:351-366, 504-517, 580-595).

module ResetGuard {
  import opened Bytes
  import opened Message
  import opened ServerSpec
  import opened Protocol

  // Exactly as long as not both an earlier round and the message in hand have traffic in flight.

  // ---- thinning a channel to chosen packets ----

  lemma {:induction false} DropForward(n: Net, lo: nat, k: nat) returns (steps: seq<Step>)
    requires lo + k <= |n.fwd|
    ensures Guarded(n, steps) && Run(n, steps) == n.(fwd := n.fwd[..lo] + n.fwd[lo + k..])
    decreases k
  {
    steps := [];
    if k == 0 {
      assert n.fwd[..lo] + n.fwd[lo..] == n.fwd;
    } else {
      var n1 := Apply(n, LoseForward(lo));
      assert n1.fwd[..lo] == n.fwd[..lo] && n1.fwd[lo + (k - 1)..] == n.fwd[lo + k..];
      var rest := DropForward(n1, lo, k - 1);
      OneStep(n, LoseForward(lo));
      RunConcat(n, [LoseForward(lo)], rest);
      steps := [LoseForward(lo)] + rest;
    }
  }

  lemma {:induction false} DropReply(n: Net, lo: nat, k: nat) returns (steps: seq<Step>)
    requires lo + k <= |n.bwd|
    ensures Guarded(n, steps) && Run(n, steps) == n.(bwd := n.bwd[..lo] + n.bwd[lo + k..])
    decreases k
  {
    steps := [];
    if k == 0 {
      assert n.bwd[..lo] + n.bwd[lo..] == n.bwd;
    } else {
      var n1 := Apply(n, LoseReply(lo));
      assert n1.bwd[..lo] == n.bwd[..lo] && n1.bwd[lo + (k - 1)..] == n.bwd[lo + k..];
      var rest := DropReply(n1, lo, k - 1);
      OneStep(n, LoseReply(lo));
      RunConcat(n, [LoseReply(lo)], rest);
      steps := [LoseReply(lo)] + rest;
    }
  }

  lemma KeepSlices<T>(s: seq<T>, i: nat, j: nat)
    requires i < j < |s|
    ensures s[..j + 1] + s[|s|..] == s[..j + 1]
    ensures s[..j + 1][..i + 1] + s[..j + 1][j..] == s[..i + 1] + [s[j]]
    ensures (s[..i + 1] + [s[j]])[..0] + (s[..i + 1] + [s[j]])[i..] == [s[i], s[j]]
  {
  }

  // All but two packets lost.

  lemma DropForwardTo(n: Net, lo: nat, k: nat, target: seq<InFlight>) returns (steps: seq<Step>)
    requires lo + k <= |n.fwd| && target == n.fwd[..lo] + n.fwd[lo + k..]
    ensures Guarded(n, steps) && Run(n, steps) == n.(fwd := target)
  {
    steps := DropForward(n, lo, k);
  }

  lemma KeepForward(n: Net, i: nat, j: nat) returns (steps: seq<Step>)
    requires i < j < |n.fwd|
    ensures Guarded(n, steps) && Run(n, steps) == n.(fwd := [n.fwd[i], n.fwd[j]])
  {
    KeepSlices(n.fwd, i, j);
    var a, b := n.fwd[..j + 1], n.fwd[..i + 1] + [n.fwd[j]];
    var s1 := DropForwardTo(n, j + 1, |n.fwd| - j - 1, a);
    var s2 := DropForwardTo(n.(fwd := a), i + 1, j - i - 1, b);
    var s3 := DropForwardTo(n.(fwd := b), 0, i, [n.fwd[i], n.fwd[j]]);
    RunConcat(n, s1, s2);
    RunConcat(n, s1 + s2, s3);
    steps := s1 + s2 + s3;
  }

  lemma DropReplyTo(n: Net, lo: nat, k: nat, target: seq<InFlight>) returns (steps: seq<Step>)
    requires lo + k <= |n.bwd| && target == n.bwd[..lo] + n.bwd[lo + k..]
    ensures Guarded(n, steps) && Run(n, steps) == n.(bwd := target)
  {
    steps := DropReply(n, lo, k);
  }

  lemma KeepReply(n: Net, i: nat, j: nat) returns (steps: seq<Step>)
    requires i < j < |n.bwd|
    ensures Guarded(n, steps) && Run(n, steps) == n.(bwd := [n.bwd[i], n.bwd[j]])
  {
    KeepSlices(n.bwd, i, j);
    var a, b := n.bwd[..j + 1], n.bwd[..i + 1] + [n.bwd[j]];
    var s1 := DropReplyTo(n, j + 1, |n.bwd| - j - 1, a);
    var s2 := DropReplyTo(n.(bwd := a), i + 1, j - i - 1, b);
    var s3 := DropReplyTo(n.(bwd := b), 0, i, [n.bwd[i], n.bwd[j]]);
    RunConcat(n, s1, s2);
    RunConcat(n, s1 + s2, s3);
    steps := s1 + s2 + s3;
  }

  // ---- a losing continuation ----

  /** A reset round has begun with two messages queued, late enough for every stamp to be accepted. */
  ghost predicate Round(n: Net) {
    n.sender.reliableState == -1 && n.sender.reliableSentTime == 0 && |n.sender.queue| >= 2 && n.now >= 0x1_0000_0000
  }

  /** Both front messages popped, the second not delivered on the way. */
  ghost predicate Loses(n: Net, m: Net) {
    && |n.sender.queue| >= 2
    && m.submitted == n.submitted && m.popped == n.popped + n.sender.queue[..2]
    && (m.delivered == n.delivered || m.delivered == n.delivered + [n.sender.queue[0]])
  }

  /** An old HANDSHAKE_RESET releases the sender, an old acknowledgement moves it to bit 1, and only then does its RESET
      arrive: the receiver goes back to 0, refuses the next message and acknowledges it. */
  lemma LateReset(n: Net) returns (steps: seq<Step>)
    requires Round(n) && n.entry.Some? && |n.fwd| == 1 && n.fwd[0].packet.ReliableReset?
    requires |n.bwd| == 2 && n.bwd[0].packet.HandshakeReset? && Acks(n.bwd[1].packet, 0)
    ensures Guarded(n, steps) && Loses(n, Run(n, steps)) && Run(n, steps).delivered == n.delivered
    ensures Run(n, steps).resets == n.resets
  {
    var m := n;
    steps := [];
    steps, m := Then(n, steps, m, DeliverReply);
    assert m.sender.reliableState == 0 && m.sender.queue == n.sender.queue && m.popped == n.popped;
    assert m.bwd == [n.bwd[1]] && m.fwd == n.fwd && m.sender.reliableSentTime == 0;
    steps, m := Then(n, steps, m, DeliverReply);
    assert m.sender.reliableState == 1 && m.sender.queue == n.sender.queue[1..]
        && m.popped == n.popped + [n.sender.queue[0]];
    assert m.bwd == [] && m.fwd == n.fwd && m.sender.reliableSentTime == 0 && m.now == n.now;
    var more: seq<Step>, l: Net;
    more, l := RefusedBehindReset(m);
    RunConcat(n, steps, more);
    assert n.sender.queue[..2] == [n.sender.queue[0]] + [n.sender.queue[1]];
    Associative(n.popped, [n.sender.queue[0]], [n.sender.queue[1]]);
    steps := steps + more;
  }

  lemma RefusedBehindReset(n: Net) returns (steps: seq<Step>, m: Net)
    requires n.sender.reliableState == 1 && n.sender.queue != [] && n.sender.reliableSentTime == 0
        && n.now >= 0x1_0000_0000
    requires n.entry.Some? && |n.fwd| == 1 && n.fwd[0].packet.ReliableReset? && n.bwd == []
    ensures Guarded(n, steps) && m == Run(n, steps)
    ensures m.popped == n.popped + [n.sender.queue[0]] && m.delivered == n.delivered && m.submitted == n.submitted
    ensures m.resets == n.resets
  {
    m := n;
    steps := [];
    steps, m := Then(n, steps, m, PollSender);
    assert |m.fwd| == 2 && m.fwd[0] == n.fwd[0] && m.fwd[1].packet.Reliable? && m.fwd[1].packet.bit == 1;
    steps, m := Then(n, steps, m, DeliverForward);
    assert m.entry == Some(0) && |m.fwd| == 1 && m.fwd[0].packet.Reliable? && m.fwd[0].packet.bit == 1;
    assert |m.bwd| == 1 && m.bwd[0].packet.HandshakeReset? && m.delivered == n.delivered;
    steps, m := Then(n, steps, m, DeliverForward);
    assert |m.bwd| == 2 && m.bwd[0].packet.HandshakeReset? && Acks(m.bwd[1].packet, 1) && m.delivered == n.delivered;
    assert m.sender.reliableState == 1 && m.sender.queue == n.sender.queue && m.popped == n.popped;
    steps, m := Then(n, steps, m, DeliverReply);
    assert |m.bwd| == 1 && Acks(m.bwd[0].packet, 1);
    assert m.sender.reliableState == 1 && m.sender.queue == n.sender.queue && m.popped == n.popped;
    steps, m := Then(n, steps, m, DeliverReply);
  }

  /** The round's own RESET is sent. */
  lemma SendReset(n: Net) returns (steps: seq<Step>, m: Net)
    requires Round(n)
    ensures Guarded(n, steps) && m == Run(n, steps)
    ensures |m.fwd| == |n.fwd| + 1 && m.fwd[..|n.fwd|] == n.fwd && m.fwd[|n.fwd|].packet.ReliableReset?
    ensures m == n.(fwd := m.fwd)
  {
    OneStep(n, PollSender);
    steps := [PollSender];
    m := Run(n, steps);
  }

  /** An old HANDSHAKE_RESET ahead of an acknowledgement of the front message. */
  lemma LosesByAck(n: Net, i: nat, j: nat) returns (steps: seq<Step>)
    requires Round(n) && n.entry.Some? && i < j < |n.bwd| && n.bwd[i].packet.HandshakeReset? && Acks(n.bwd[j].packet, 0)
    ensures Guarded(n, steps) && Loses(n, Run(n, steps)) && Run(n, steps).resets == n.resets
  {
    var s1, n1 := SendReset(n);
    var s2 := DropForward(n1, 0, |n.fwd|);
    var n2 := Run(n1, s2);
    RunConcat(n, s1, s2);
    var s3 := KeepReply(n2, i, j);
    var n3 := Run(n2, s3);
    RunConcat(n, s1 + s2, s3);
    var s4 := LateReset(n3);
    RunConcat(n, s1 + s2 + s3, s4);
    steps := s1 + s2 + s3 + s4;
  }

  /** An old HANDSHAKE_RESET, and a copy of the front message that is still to provoke its acknowledgement. */
  lemma LosesByCopy(n: Net, i: nat, j: nat) returns (steps: seq<Step>)
    requires Round(n) && i < |n.bwd| && n.bwd[i].packet.HandshakeReset?
    requires j < |n.fwd| && Current(n.fwd[j].packet, 0, n.sender.queue)
    ensures Guarded(n, steps) && Loses(n, Run(n, steps)) && Run(n, steps).resets == n.resets
  {
    var s1, n1 := SendReset(n);
    assert n1.fwd[j] == n.fwd[j];
    var s2 := KeepForward(n1, j, |n.fwd|);
    var n2 := Run(n1, s2);
    RunConcat(n, s1, s2);
    OneStep(n2, DeliverForward);
    var n3 := Forward(n2);
    RunConcat(n, s1 + s2, [DeliverForward]);
    assert n3.bwd[i] == n.bwd[i] && Acks(n3.bwd[|n.bwd|].packet, 0);
    var s4 := KeepReply(n3, i, |n.bwd|);
    var n4 := Run(n3, s4);
    RunConcat(n, s1 + s2 + [DeliverForward], s4);
    var s5 := LateReset(n4);
    RunConcat(n, s1 + s2 + [DeliverForward] + s4, s5);
    steps := s1 + s2 + [DeliverForward] + s4 + s5;
    NotDelivered(n, n3, Run(n4, s5));
  }

  lemma NotDelivered(n: Net, n3: Net, m: Net)
    requires |n.sender.queue| >= 2 && n3.sender == n.sender && n3.submitted == n.submitted && n3.popped == n.popped
    requires n3.delivered == n.delivered || n3.delivered == n.delivered + [n.sender.queue[0]]
    requires m.submitted == n.submitted && m.popped == n.popped + n.sender.queue[..2] && m.delivered == n3.delivered
    ensures Loses(n, m)
  {
  }

  /** A RESET left over ahead of a copy of the front message. */
  lemma LosesByReset(n: Net, i: nat, j: nat) returns (steps: seq<Step>)
    requires Round(n) && i < j < |n.fwd| && n.fwd[i].packet.ReliableReset?
        && Current(n.fwd[j].packet, 0, n.sender.queue)
    ensures Guarded(n, steps) && Loses(n, Run(n, steps)) && Run(n, steps).resets == n.resets
  {
    var s1 := KeepForward(n, i, j);
    var n1 := Run(n, s1);
    OneStep(n1, DeliverForward);
    var n2 := Forward(n1);
    RunConcat(n, s1, [DeliverForward]);
    assert n2.bwd[|n.bwd|].packet.HandshakeReset? && n2.fwd == [n.fwd[j]];
    var s3 := LosesByCopy(n2, |n.bwd|, 0);
    RunConcat(n, s1 + [DeliverForward], s3);
    steps := s1 + [DeliverForward] + s3;
  }

  // ---- which of these it is ----

  /** Where a reset fires that may not. */
  lemma Unsafe(n: Net, copies: seq<nat>) returns (i: nat, j: nat, shape: nat)
    requires Inv(n, copies) && n.sender.reliableState != -1 && n.sender.queue != [] && !MayFire(n)
    ensures n.sender.reliableState == 0
    ensures shape <= 2
    ensures shape == 0 ==> n.entry.Some? && i < j < |n.bwd| && n.bwd[i].packet.HandshakeReset?
                           && Acks(n.bwd[j].packet, 0)
    ensures shape == 1 ==> i < |n.bwd| && n.bwd[i].packet.HandshakeReset?
                           && j < |n.fwd| && Current(n.fwd[j].packet, 0, n.sender.queue)
    ensures shape == 2 ==> i < j < |n.fwd| && n.fwd[i].packet.ReliableReset?
                           && Current(n.fwd[j].packet, 0, n.sender.queue)
  {
    var b: Bit := n.sender.reliableState;
    var stage :| Stands(n, copies, stage);
    if k :| 0 <= k < |n.fwd| && Current(n.fwd[k].packet, b, n.sender.queue) {
      j := k;
      if l :| 0 <= l < |n.bwd| && n.bwd[l].packet.HandshakeReset? {
        i, shape := l, 1;
      } else {
        var l :| 0 <= l < |n.fwd| && n.fwd[l].packet.ReliableReset?;
        i, shape := l, 2;
      }
    } else {
      var k :| 0 <= k < |n.bwd| && Acks(n.bwd[k].packet, b);
      var l :| 0 <= l < |n.bwd| && n.bwd[l].packet.HandshakeReset?;
      i, j, shape := l, k, 0;
    }
  }

  /** A reset that fires when it may not can lose a message, with no further reset. */
  lemma MayLose(n: Net, copies: seq<nat>, m: Net) returns (steps: seq<Step>)
    requires Inv(n, copies) && Fires(n, PollSender) && !MayFire(n)
    requires m == n.(sender := m.sender, now := m.now, resets := m.resets, submitted := m.submitted)
    requires Round(m) && m.sender.queue[0] == n.sender.queue[0]
    ensures Guarded(m, steps) && Loses(m, Run(m, steps)) && Run(m, steps).resets == m.resets
  {
    var i, j, shape := Unsafe(n, copies);
    if shape == 0 {
      steps := LosesByAck(m, i, j);
    } else if shape == 1 {
      steps := LosesByCopy(m, i, j);
    } else {
      steps := LosesByReset(m, i, j);
    }
  }

  // ---- the exact guard ----

  lemma {:induction false} ExpandHas(s: seq<Msg>, copies: seq<nat>, k: nat)
    requires k < |copies| <= |s| && AtLeastOnce(copies)
    ensures s[k] in Expand(s, copies)
    decreases |copies|
  {
    var last := |copies| - 1;
    if k == last {
      assert Repeat(s[k], copies[k])[0] == s[k];
    } else {
      ExpandHas(s, copies[..last], k);
    }
  }

  lemma {:induction false} ExpandWithin(s: seq<Msg>, copies: seq<nat>)
    requires |copies| <= |s|
    ensures forall x <- Expand(s, copies) :: x in s[..|copies|]
    decreases |copies|
  {
    if copies != [] {
      var last := |copies| - 1;
      ExpandWithin(s, copies[..last]);
      assert s[..|copies|] == s[..last] + [s[last]];
    }
  }

  lemma {:induction false} FreshMsg(xs: seq<Msg>) returns (x: Msg)
    ensures x !in xs && forall y <- xs :: |y| < |x|
  {
    if xs == [] {
      x := [0];
    } else {
      var y := FreshMsg(xs[1..]);
      x := if |xs[0]| < |y| then y else xs[0] + [0];
      assert forall z <- xs :: z == xs[0] || z in xs[1..];
    }
  }

  /** The message behind the front one has not been delivered yet. */
  lemma NextUndelivered(n: Net, copies: seq<nat>, submitted: seq<Msg>, x: Msg)
    requires Accounts(n, copies) && n.submitted <= submitted && Distinct(submitted)
    requires |n.popped| + 1 < |submitted| && x == submitted[|n.popped| + 1]
    ensures x !in n.delivered
  {
    ExpandWithin(n.submitted, copies);
    assert forall i | 0 <= i < |copies| :: n.submitted[..|copies|][i] == submitted[i] != x;
  }

  /** A message popped undelivered is out of order, if no other message looks like it. */
  lemma LosingIsDisorder(n: Net, copies: seq<nat>, m: Net, l: Net, more: seq<nat>)
    requires Accounts(n, copies) && n.sender.queue != [] && Distinct(m.submitted) && Loses(m, l)
    requires m.submitted == m.popped + m.sender.queue && m.popped == n.popped && m.delivered == n.delivered
    requires n.submitted <= m.submitted && m.sender.queue[0] == n.sender.queue[0]
    ensures !InOrder(l, more)
  {
    var k := |n.popped| + 1;
    var x := m.submitted[k];
    assert x == m.sender.queue[1] && m.submitted[k - 1] == m.sender.queue[0];
    NextUndelivered(n, copies, m.submitted, x);
    assert x !in l.delivered;
    if InOrder(l, more) {
      ExpandHas(l.submitted, more, k);
    }
  }

  /** After the reset has fired: a second message submitted if need be, and time passed. */
  lemma RoundBegun(n: Net) returns (steps: seq<Step>, m: Net)
    requires Fires(n, PollSender) && Distinct(n.submitted) && n.submitted == n.popped + n.sender.queue
    ensures Guarded(Apply(n, PollSender), steps) && m == Run(Apply(n, PollSender), steps)
    ensures m == n.(sender := m.sender, now := m.now, resets := m.resets, submitted := m.submitted)
    ensures Round(m) && m.sender.queue[0] == n.sender.queue[0]
    ensures Distinct(m.submitted) && m.submitted == m.popped + m.sender.queue && n.submitted <= m.submitted
  {
    var n1 := Apply(n, PollSender);
    m := n1;
    steps := [];
    if |n.sender.queue| < 2 {
      var x := FreshMsg(n.submitted);
      steps, m := Then(n1, steps, m, Submit(x));
      Associative(n.popped, n.sender.queue, [x]);
    }
    var later := if n.now < 0x1_0000_0000 then 0x1_0000_0000 else n.now;
    steps, m := Then(n1, steps, m, Tick(later));
  }

  /** Every continuation in which resets fire only when they may delivers in order and without loss. */
  ghost predicate Orderly(n: Net) {
    forall steps | Guarded(n, steps) :: exists copies: seq<nat> :: InOrder(Run(n, steps), copies)
  }

  lemma InvIsOrderly(n: Net, copies: seq<nat>)
    requires Inv(n, copies)
    ensures Orderly(n)
  {
    forall steps | Guarded(n, steps) ensures exists more: seq<nat> :: InOrder(Run(n, steps), more) {
      var more := RunKeepsInv(n, steps, copies);
      InvInOrder(Run(n, steps), more);
    }
  }

  lemma UnsafeIsDisorderly(n: Net, copies: seq<nat>)
    requires Inv(n, copies) && Fires(n, PollSender) && Distinct(n.submitted) && !MayFire(n)
    ensures !Orderly(Apply(n, PollSender))
  {
    var n1 := Apply(n, PollSender);
    var s1, m := RoundBegun(n);
    var s2 := MayLose(n, copies, m);
    RunConcat(n1, s1, s2);
    assert Guarded(n1, s1 + s2);
    forall more: seq<nat> ensures !InOrder(Run(n1, s1 + s2), more) {
      LosingIsDisorder(n, copies, m, Run(m, s2), more);
    }
  }

  /** For distinct messages the condition on resets is exact: a reset may fire if and only if, after it, everything is
      delivered in order and without loss as long as later resets fire when they may. */
  lemma FiringIsSafeExactly(n: Net, copies: seq<nat>)
    requires Inv(n, copies) && Fires(n, PollSender) && Distinct(n.submitted)
    ensures MayFire(n) <==> Orderly(Apply(n, PollSender))
  {
    if MayFire(n) {
      PollSenderKeeps(n, copies);
      InvIsOrderly(Apply(n, PollSender), copies);
    } else {
      UnsafeIsDisorderly(n, copies);
    }
  }

  /** In particular wherever a guarded run from a fresh start may lead. */
  lemma FiringIsSafeOnRuns(start: Net, steps: seq<Step>)
    requires Fresh(start) && start.entry != Some(1) && Guarded(start, steps)
    requires Fires(Run(start, steps), PollSender) && Distinct(Run(start, steps).submitted)
    ensures MayFire(Run(start, steps)) <==> Orderly(Apply(Run(start, steps), PollSender))
  {
    FreshInv(start);
    var copies := RunKeepsInv(start, steps, []);
    FiringIsSafeExactly(Run(start, steps), copies);
  }
}
