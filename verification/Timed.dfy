// When the guard on resets holds by itself.

module Timed {
  import opened Bytes
  import opened Message
  import opened Protocol

  // It does when a packet and the reply it provokes are gone before the reliable timeout (src/UdcClient.cpp:118-139,
  // src/UdcServer.cpp:351-384, 590-594).

  /** Everything in flight descends from a packet sent less than the reliable timeout ago. */
  ghost predicate Young(n: Net) {
    && (forall i | 0 <= i < |n.fwd| :: n.now - n.fwd[i].born < n.sender.reliableTimeoutPeriod)
    && (forall i | 0 <= i < |n.bwd| :: n.now - n.bwd[i].born < n.sender.reliableTimeoutPeriod)
  }

  /** A run under a positive clock that never goes back, with everything in flight young throughout. */
  ghost predicate Punctual(n: Net, steps: seq<Step>)
    decreases |steps|
  {
    && n.now > 0 && Young(n)
    && (steps != [] ==> (steps[0].Tick? ==> steps[0].t >= n.now) && Punctual(Apply(n, steps[0]), steps[1..]))
  }

  predicate ResetTraffic(p: Packet) {
    p.ReliableReset? || p.HandshakeReset?
  }

  /** `released` is when the last reset round ended. Outside a round, what is left of the round was sent no
      later, and the timer was started no earlier. */
  ghost predicate Settled(n: Net, released: int) {
    && released <= n.now && n.now > 0
    && (forall i | 0 <= i < |n.fwd| :: n.fwd[i].born <= n.now)
    && (forall i | 0 <= i < |n.bwd| :: n.bwd[i].born <= n.now)
    && if n.sender.reliableState == -1 then n.sender.reliableSentTime == 0
       else
         && (forall i | 0 <= i < |n.fwd| :: ResetTraffic(n.fwd[i].packet) ==> n.fwd[i].born <= released)
         && (forall i | 0 <= i < |n.bwd| :: ResetTraffic(n.bwd[i].packet) ==> n.bwd[i].born <= released)
         && (n.sender.reliableSentTime == 0 || released <= n.sender.reliableSentTime)
  }

  /** The guard is discharged: whoever waited long enough to fire outlived all earlier reset traffic. */
  lemma FiresInQuiet(n: Net, step: Step, released: int)
    requires Settled(n, released) && Young(n) && Fires(n, step)
    ensures Quiet(n)
  {
    assert n.now - released >= n.sender.reliableTimeoutPeriod;
  }

  lemma ReplySettles(n: Net, released: int) returns (later: int)
    requires Settled(n, released) && n.bwd != []
    ensures Settled(Reply(n), later)
  {
    var n' := Reply(n);
    assert forall i | 0 <= i < |n'.bwd| :: n'.bwd[i] == n.bwd[i + 1];
    later := if n.sender.reliableState == -1 && n'.sender.reliableState != -1 then n.now else released;
  }

  lemma ForwardSettles(n: Net, released: int)
    requires Settled(n, released) && n.fwd != []
    ensures Settled(Forward(n), released)
  {
    var n' := Forward(n);
    assert forall i | 0 <= i < |n'.fwd| :: n'.fwd[i] == n.fwd[i + 1];
    assert forall i | 0 <= i < |n.bwd| :: n'.bwd[i] == n.bwd[i];
    assert forall i | |n.bwd| <= i < |n'.bwd| :: n'.bwd[i].born == n.fwd[0].born;
  }

  lemma ThinSettles(n: Net, n': Net, from: seq<int>, released: int)
    requires Settled(n, released)
    requires || (n' == n.(fwd := n'.fwd) && Picks(n.fwd, n'.fwd, from))
             || (n' == n.(bwd := n'.bwd) && Picks(n.bwd, n'.bwd, from))
    ensures Settled(n', released)
  {
  }

  lemma StepSettles(n: Net, step: Step, released: int) returns (later: int)
    requires Settled(n, released) && (step.Tick? ==> step.t >= n.now)
    ensures Settled(Apply(n, step), later)
  {
    later := released;
    match step
    case Submit(m) =>
    case Tick(t) =>
    case PollSender =>
    case DeliverForward => if n.fwd != [] { ForwardSettles(n, released); }
    case DeliverReply => if n.bwd != [] { later := ReplySettles(n, released); }
    case LoseForward(i) => var from := RemovePicks(n.fwd, i); ThinSettles(n, Apply(n, step), from, released);
    case LoseReply(i) => var from := RemovePicks(n.bwd, i); ThinSettles(n, Apply(n, step), from, released);
    case DuplicateForward(i) => var from := DuplicatePicks(n.fwd, i); ThinSettles(n, Apply(n, step), from, released);
    case DuplicateReply(i) => var from := DuplicatePicks(n.bwd, i); ThinSettles(n, Apply(n, step), from, released);
  }

  /** A punctual run satisfies the guard at every reset it fires. */
  lemma {:induction false} PunctualIsGuarded(n: Net, steps: seq<Step>, released: int)
    requires Settled(n, released) && Punctual(n, steps)
    ensures Guarded(n, steps)
    decreases |steps|
  {
    if steps != [] {
      if Fires(n, steps[0]) {
        FiresInQuiet(n, steps[0], released);
      }
      var later := StepSettles(n, steps[0], released);
      PunctualIsGuarded(Apply(n, steps[0]), steps[1..], later);
    }
  }

  /** So over a channel faster than the timeout the order result needs no assumption on resets. */
  lemma PunctualInOrder(n: Net, steps: seq<Step>) returns (copies: seq<nat>)
    requires Fresh(n) && n.entry != Some(1) && Punctual(n, steps)
    ensures InOrder(Run(n, steps), copies)
  {
    PunctualIsGuarded(n, steps, 0);
    copies := InOrderWithResets(n, steps);
  }
}
