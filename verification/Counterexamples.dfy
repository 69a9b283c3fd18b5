// Short runs that show the assumptions of the order results are needed.

module Counterexamples {
  import opened Bytes
  import opened Message
  import opened Client
  import opened Protocol

  const FIRST: Msg := [1]
  const SECOND: Msg := [2]

  /** A new client with a reliable timeout of 100 ms, at time 1000, to an address never heard from. */
  const START: Net :=
    Net(NewClient(1, IPv4([127, 0, 0, 1], 2346), 1000, 100), None, [], [], 1000, [], [], [], 0)

  /** Both messages submitted, the first delivered and its acknowledgement lost. */
  lemma AcknowledgementLost() returns (steps: seq<Step>, m: Net)
    ensures m == Run(START, steps) && Guarded(START, steps)
    ensures m.sender == START.sender.(queue := [FIRST, SECOND], reliableSentTime := 1000)
    ensures m == START.(sender := m.sender, entry := Some(1), submitted := [FIRST, SECOND], delivered := [FIRST])
  {
    m := START;
    steps := [];
    steps, m := Then(START, steps, m, Submit(FIRST));
    steps, m := Then(START, steps, m, Submit(SECOND));
    steps, m := Then(START, steps, m, PollSender);
    steps, m := Then(START, steps, m, DeliverForward);
    steps, m := Then(START, steps, m, LoseReply(0));
  }

  /** The timeout passed, a reset round begun and its RESET received. */
  lemma ResetRoundBegun() returns (steps: seq<Step>, m: Net)
    ensures m == Run(START, steps) && Guarded(START, steps)
    ensures m.sender.queue == [FIRST, SECOND] && m.sender.reliableState == -1 && m.sender.reliableSentTime == 0
    ensures m.sender.reliableTimeoutPeriod == 100 && m.now == 1100 && m.entry == Some(0)
    ensures m.fwd == [] && m.bwd == [InFlight(HandshakeReset(1100), 1100)]
    ensures m.submitted == [FIRST, SECOND] && m.popped == [] && m.delivered == [FIRST] && m.resets == 1
  {
    steps, m := AcknowledgementLost();
    steps, m := Then(START, steps, m, Tick(1100));
    steps, m := Then(START, steps, m, PollSender);
    assert m.sender.reliableState == -1 && m.fwd == [] && m.bwd == [] && m.resets == 1;
    steps, m := Then(START, steps, m, PollSender);
    steps, m := Then(START, steps, m, DeliverForward);
  }

  /** A reset, fired in quiet, may deliver the message in hand twice: exactly-once does not survive a timeout. */
  lemma ResetDuplicates() returns (steps: seq<Step>)
    ensures Fresh(START) && Guarded(START, steps)
    ensures Run(START, steps).resets == 1
    ensures Run(START, steps).popped == [FIRST] && Run(START, steps).delivered == [FIRST, FIRST]
  {
    var m: Net;
    steps, m := ResetRoundBegun();
    steps, m := Then(START, steps, m, DeliverReply);
    assert m.sender.reliableState == 0 && m.entry == Some(0) && m.bwd == [] && m.sender.queue == [FIRST, SECOND];
    steps, m := Then(START, steps, m, PollSender);
    steps, m := Then(START, steps, m, DeliverForward);
    steps, m := Then(START, steps, m, DeliverReply);
  }

  /** The reset acknowledgement is duplicated, and one copy releases the sender. */
  lemma ReleasedWithCopy() returns (steps: seq<Step>, m: Net)
    ensures m == Run(START, steps) && Guarded(START, steps)
    ensures m.sender.queue == [FIRST, SECOND] && m.sender.reliableState == 0 && m.sender.reliableSentTime == 0
    ensures m.sender.reliableTimeoutPeriod == 100 && m.now == 1100 && m.entry == Some(0)
    ensures m.fwd == [] && m.bwd == [InFlight(HandshakeReset(1100), 1100)]
    ensures m.submitted == [FIRST, SECOND] && m.popped == [] && m.delivered == [FIRST]
  {
    steps, m := ResetRoundBegun();
    steps, m := Then(START, steps, m, DuplicateReply(0));
    steps, m := Then(START, steps, m, DeliverReply);
  }

  /** The second copy is still travelling when the next reset fires. */
  lemma SecondResetTooEarly() returns (steps: seq<Step>, m: Net)
    ensures m == Run(START, steps) && !Guarded(START, steps)
    ensures m.sender.queue == [FIRST, SECOND] && m.sender.reliableState == -1 && m.sender.reliableSentTime == 0
    ensures m.sender.reliableTimeoutPeriod == 100 && m.now == 1200 && m.entry == Some(1)
    ensures m.fwd == [] && m.bwd == [InFlight(HandshakeReset(1100), 1100), InFlight(Handshake(0, 1100), 1100)]
    ensures m.submitted == [FIRST, SECOND] && m.popped == [] && m.delivered == [FIRST, FIRST]
  {
    steps, m := ReleasedWithCopy();
    steps, m := Then(START, steps, m, PollSender);
    steps, m := Then(START, steps, m, DeliverForward);
    steps, m := Then(START, steps, m, Tick(1200));
    assert m.bwd[0].packet.HandshakeReset? && Acks(m.bwd[1].packet, 0) && !MayFire(m);
    steps, m := Then(START, steps, m, PollSender);
  }

  /** The old HANDSHAKE_RESET releases the sender while the new RESET is still travelling. */
  lemma ReleasedTooEarly() returns (steps: seq<Step>, m: Net)
    ensures m == Run(START, steps) && !Guarded(START, steps)
    ensures m.sender.queue == [SECOND] && m.sender.reliableState == 1 && m.sender.reliableSentTime == 0
    ensures m.sender.reliableTimeoutPeriod == 100 && m.now == 1200 && m.entry == Some(1)
    ensures m.fwd == [InFlight(ReliableReset(1200), 1200)] && m.bwd == []
    ensures m.submitted == [FIRST, SECOND] && m.popped == [FIRST] && m.delivered == [FIRST, FIRST]
  {
    steps, m := SecondResetTooEarly();
    steps, m := Then(START, steps, m, PollSender);
    steps, m := Then(START, steps, m, DeliverReply);
    assert m.fwd == [InFlight(ReliableReset(1200), 1200)] && m.bwd == [InFlight(Handshake(0, 1100), 1100)];
    assert m.sender.reliableState == 0 && m.sender.queue == [FIRST, SECOND];
    steps, m := Then(START, steps, m, DeliverReply);
  }

  /** The receiver goes back to 0 behind the sender's back, refuses the next message and acknowledges it. */
  lemma NextRefused() returns (steps: seq<Step>, m: Net)
    ensures m == Run(START, steps) && !Guarded(START, steps)
    ensures m.sender.queue == [SECOND] && m.sender.reliableState == 1 && m.now == 1200 && m.fwd == []
    ensures m.bwd == [InFlight(HandshakeReset(1200), 1200), InFlight(Handshake(1, 1200), 1200)]
    ensures m.submitted == [FIRST, SECOND] && m.popped == [FIRST] && m.delivered == [FIRST, FIRST]
  {
    steps, m := ReleasedTooEarly();
    steps, m := Then(START, steps, m, PollSender);
    steps, m := Then(START, steps, m, DeliverForward);
    assert m.entry == Some(0) && m.fwd == [InFlight(Reliable(1, 1200, SECOND), 1200)];
    steps, m := Then(START, steps, m, DeliverForward);
  }

  /** Without the guard a message is lost. */
  lemma StaleResetLoses() returns (steps: seq<Step>)
    ensures Fresh(START) && !Guarded(START, steps)
    ensures Run(START, steps).popped == [FIRST, SECOND] == Run(START, steps).submitted
    ensures SECOND !in Run(START, steps).delivered
  {
    var m: Net;
    steps, m := NextRefused();
    steps, m := Then(START, steps, m, DeliverReply);
    steps, m := Then(START, steps, m, DeliverReply);
  }

  /** Two packets in flight change places, as they may over UDP. */
  function Overtake(n: Net): Net
    requires |n.fwd| >= 2
  {
    n.(fwd := [n.fwd[1], n.fwd[0]] + n.fwd[2..])
  }

  /** The first message acknowledged, a copy of it still travelling ahead of the second. */
  lemma CopyAhead() returns (steps: seq<Step>, m: Net)
    ensures m == Run(START, steps) && m.resets == 0 && m.entry == Some(1)
    ensures m.fwd == [InFlight(Reliable(0, 1000, FIRST), 1000), InFlight(Reliable(1, 1000, SECOND), 1000)]
    ensures m.submitted == [FIRST, SECOND] && m.delivered == [FIRST]
  {
    m := START;
    steps := [];
    steps, m := Then(START, steps, m, Submit(FIRST));
    steps, m := Then(START, steps, m, Submit(SECOND));
    steps, m := Then(START, steps, m, PollSender);
    steps, m := Then(START, steps, m, DuplicateForward(0));
    steps, m := Then(START, steps, m, DeliverForward);
    steps, m := Then(START, steps, m, DeliverReply);
    assert m.sender.queue == [SECOND] && m.sender.reliableState == 1 && m.entry == Some(1);
    steps, m := Then(START, steps, m, PollSender);
  }

  /** Without FIFO order a late copy of bit 0, arriving after bit 1 was accepted, is delivered again. */
  lemma ReorderingDuplicates() returns (before: seq<Step>, after: seq<Step>)
    ensures Fresh(START) && |Run(START, before).fwd| >= 2
    ensures var m := Run(Overtake(Run(START, before)), after);
            m.resets == 0 && m.submitted == [FIRST, SECOND] && m.delivered == [FIRST, SECOND, FIRST]
  {
    var m: Net;
    before, m := CopyAhead();
    var o := Overtake(m);
    assert o.fwd == [InFlight(Reliable(1, 1000, SECOND), 1000), InFlight(Reliable(0, 1000, FIRST), 1000)];
    m := o;
    after := [];
    after, m := Then(o, after, m, DeliverForward);
    after, m := Then(o, after, m, DeliverForward);
  }
}
