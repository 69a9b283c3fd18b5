// What a new session inherits.

module Sessions {
  import opened Bytes
  import opened Message
  import opened ServerSpec
  import opened Protocol

  // The receiver's entry for the address outlives a disconnect, the sender starts again at bit 0
  // (src/UdcServer.cpp:74-109, 500-534, src/UdcClient.cpp:12).

  // ---- the entry after any traffic ----

  /** What reached the receiver from one address: Some(b) a message under bit b, None a RESET. */
  function EntryAfter(entry: Option<Bit>, arrivals: seq<Option<Bit>>): Option<Bit>
    decreases |arrivals|
  {
    if arrivals == [] then entry
    else
      var last := |arrivals| - 1;
      var e := EntryAfter(entry, arrivals[..last]);
      if arrivals[last].None? then ReceiveReset(e) else ReceiveReliable(e, arrivals[last].value).0
  }

  /** Deliveries since the last RESET. */
  function DeliveriesSinceReset(entry: Option<Bit>, arrivals: seq<Option<Bit>>): nat
    decreases |arrivals|
  {
    if arrivals == [] then 0
    else
      var last := |arrivals| - 1;
      var e := EntryAfter(entry, arrivals[..last]);
      if arrivals[last].None? then 0
      else DeliveriesSinceReset(entry, arrivals[..last]) + if ReceiveReliable(e, arrivals[last].value).1 then 1 else 0
  }

  /** The entry after some arrivals, without the steps in between: the last arrival decides, and after a RESET whether
      the address was ever heard of. */
  ghost function EntryFromLast(entry: Option<Bit>, arrivals: seq<Option<Bit>>): Option<Bit> {
    if arrivals == [] then entry
    else
      match arrivals[|arrivals| - 1]
      case Some(bit) => Some(1 - bit)
      case None => if entry.Some? || exists a <- arrivals :: a.Some? then Some(0) else None
  }

  lemma {:induction false} EntryIsFromLast(entry: Option<Bit>, arrivals: seq<Option<Bit>>)
    ensures EntryAfter(entry, arrivals) == EntryFromLast(entry, arrivals)
    decreases |arrivals|
  {
    if arrivals != [] {
      var last := |arrivals| - 1;
      EntryIsFromLast(entry, arrivals[..last]);
      assert arrivals == arrivals[..last] + [arrivals[last]];
      if arrivals[..last] != [] && arrivals[last - 1].Some? {
        assert arrivals[last - 1] in arrivals;
      }
    }
  }

  function Parity(n: nat): Bit {
    if n == 0 then 0 else Flip(Parity(n - 1))
  }

  lemma {:induction false} ParityIsRemainder(n: nat)
    ensures Parity(n) == n % 2
  {
    if n > 0 {
      ParityIsRemainder(n - 1);
    }
  }

  predicate SawReset(arrivals: seq<Option<Bit>>) {
    None in arrivals
  }

  /** A known address: the entry is the parity of the deliveries since the last RESET, counted from the first entry
      when there was none. */
  lemma {:induction false} EntryIsParity(first: Bit, arrivals: seq<Option<Bit>>)
    ensures EntryAfter(Some(first), arrivals).Some?
    ensures var base := if SawReset(arrivals) then 0 else first;
            EntryAfter(Some(first), arrivals).value == Parity(base + DeliveriesSinceReset(Some(first), arrivals))
  {
    if arrivals != [] {
      var last := |arrivals| - 1;
      EntryIsParity(first, arrivals[..last]);
      assert arrivals == arrivals[..last] + [arrivals[last]];
    }
  }

  /** An address heard for the first time: its first message is delivered whatever the bit, as if the entry had
      been that bit. */
  lemma {:induction false} FirstContact(bit: Bit, rest: seq<Option<Bit>>)
    ensures EntryAfter(None, [Some(bit)] + rest) == EntryAfter(Some(bit), [Some(bit)] + rest)
    ensures DeliveriesSinceReset(None, [Some(bit)] + rest) == DeliveriesSinceReset(Some(bit), [Some(bit)] + rest)
  {
    var all := [Some(bit)] + rest;
    if rest == [] {
      assert all[..0] == [];
    } else {
      FirstContact(bit, rest[..|rest| - 1]);
      assert all[..|all| - 1] == [Some(bit)] + rest[..|rest| - 1];
    }
  }

  /** So for a new address the entry is the plain parity exactly when the first message came under bit 0 or a RESET
      has come since. */
  lemma NewAddressParity(bit: Bit, rest: seq<Option<Bit>>)
    ensures EntryAfter(None, [Some(bit)] + rest).Some?
    ensures EntryAfter(None, [Some(bit)] + rest).value == Parity(DeliveriesSinceReset(None, [Some(bit)] + rest))
            <==> bit == 0 || SawReset(rest)
  {
    var all := [Some(bit)] + rest;
    FirstContact(bit, rest);
    EntryIsParity(bit, all);
    assert SawReset(all) == SawReset(rest);
  }

  // ---- a session that finds the entry at 1 ----

  /** The history without the first message. */
  function Erase(n: Net): Net
    requires n.popped != [] && n.submitted != []
  {
    n.(submitted := n.submitted[1..], popped := n.popped[1..])
  }

  /** Nothing popped yet: the receiver refuses bit 0 but acknowledges it. */
  ghost predicate Refusing(n: Net) {
    && n.popped == [] && n.submitted == n.sender.queue && n.delivered == []
    && n.sender.reliableState == 0 && n.entry == Some(1)
    && (forall i | 0 <= i < |n.fwd| :: Current(n.fwd[i].packet, 0, n.sender.queue))
    && (forall i | 0 <= i < |n.bwd| :: Acks(n.bwd[i].packet, 0))
    && (n.sender.queue == [] ==> n.bwd == [])
  }

  ghost predicate Skipping(n: Net, copies: seq<nat>) {
    || Refusing(n)
    || (n.popped != [] && n.submitted != [] && n.submitted[0] == n.popped[0] && Inv(Erase(n), copies))
  }

  lemma EraseCommutes(n: Net, step: Step)
    requires n.popped != [] && n.submitted != []
    ensures Apply(n, step).popped != [] && Apply(n, step).submitted != []
    ensures Apply(n, step).popped[0] == n.popped[0] && Apply(n, step).submitted[0] == n.submitted[0]
    ensures Erase(Apply(n, step)) == Apply(Erase(n), step)
    ensures Fires(n, step) == Fires(Erase(n), step) && MayFire(n) == MayFire(Erase(n))
  {
    match step
    case Submit(m) => assert (n.submitted + [m])[1..] == n.submitted[1..] + [m];
    case DeliverReply =>
      if n.bwd != [] {
        var n' := Reply(n);
        assert n'.popped != n.popped ==> n'.popped[1..] == n.popped[1..] + [n.sender.queue[0]];
      }
    case _ =>
  }

  /** The first message is popped undelivered. */
  lemma RefusedAcks(n: Net)
    requires Refusing(n) && n.bwd != [] && n.now >= n.bwd[0].packet.stamp
    ensures Skipping(Reply(n), [])
  {
    var n' := Reply(n);
    ReplyShifts(n);
    assert n'.popped == [n.sender.queue[0]] && n'.sender.queue == n.sender.queue[1..];
    assert Quiet(Erase(n')) && Waiting(Erase(n'), 1) && Accounts(Erase(n'), []);
    assert Stands(Erase(n'), [], Waits(1));
  }

  lemma RefusingForward(n: Net)
    requires Refusing(n) && n.fwd != []
    ensures Refusing(Forward(n))
  {
    ForwardShifts(n);
  }

  lemma RefusingReply(n: Net)
    requires Refusing(n) && n.bwd != []
    ensures Skipping(Reply(n), [])
  {
    ReplyShifts(n);
    if n.now >= n.bwd[0].packet.stamp {
      RefusedAcks(n);
    }
  }

  lemma ThinsRefusing(n: Net, n': Net, fwd: seq<int>, bwd: seq<int>)
    requires Refusing(n) && n' == n.(fwd := n'.fwd, bwd := n'.bwd)
    requires n'.fwd == n.fwd || Picks(n.fwd, n'.fwd, fwd)
    requires n'.bwd == n.bwd || Picks(n.bwd, n'.bwd, bwd)
    ensures Refusing(n')
  {
    assert n'.bwd != [] && n'.bwd != n.bwd ==> 0 <= bwd[0] < |n.bwd|;
  }

  lemma RefusingThins(n: Net, step: Step)
    requires Refusing(n)
    requires step.LoseForward? || step.LoseReply? || step.DuplicateForward? || step.DuplicateReply?
    ensures Refusing(Apply(n, step))
  {
    var n' := Apply(n, step);
    var from: seq<int> := [];
    match step
    case LoseForward(i) => from := RemovePicks(n.fwd, i); ThinsRefusing(n, n', from, []);
    case LoseReply(i) => from := RemovePicks(n.bwd, i); ThinsRefusing(n, n', [], from);
    case DuplicateForward(i) => from := DuplicatePicks(n.fwd, i); ThinsRefusing(n, n', from, []);
    case DuplicateReply(i) => from := DuplicatePicks(n.bwd, i); ThinsRefusing(n, n', [], from);
  }

  lemma RefusingStep(n: Net, step: Step)
    requires Refusing(n) && !Fires(n, step)
    ensures Skipping(Apply(n, step), [])
  {
    match step
    case Submit(m) => assert n.sender.queue != [] ==> Apply(n, step).sender.queue[0] == n.sender.queue[0];
    case Tick(t) =>
    case PollSender =>
    case DeliverForward => if n.fwd != [] { RefusingForward(n); }
    case DeliverReply => if n.bwd != [] { RefusingReply(n); }
    case _ => RefusingThins(n, step);
  }

  lemma SkippingStep(n: Net, step: Step, copies: seq<nat>) returns (more: seq<nat>)
    requires Skipping(n, copies) && !Fires(n, step)
    ensures Skipping(Apply(n, step), more)
  {
    if Refusing(n) {
      RefusingStep(n, step);
      more := [];
    } else {
      EraseCommutes(n, step);
      more := StepKeeps(Erase(n), step, copies);
    }
  }

  lemma {:induction false} SkippingRun(n: Net, steps: seq<Step>, copies: seq<nat>) returns (more: seq<nat>)
    requires Skipping(n, copies) && Run(n, steps).resets == n.resets
    ensures Skipping(Run(n, steps), more)
    decreases |steps|
  {
    more := copies;
    if steps != [] {
      ResetsGrow(Apply(n, steps[0]), steps[1..]);
      more := SkippingStep(n, steps[0], copies);
      more := SkippingRun(Apply(n, steps[0]), steps[1..], more);
    }
  }

  /** The first message is popped undelivered and every later one is delivered once and in order. */
  ghost predicate FirstSkipped(n: Net) {
    && n.submitted == n.popped + n.sender.queue
    && if n.popped == [] then n.delivered == []
       else
         || n.delivered == n.popped[1..]
         || (n.sender.queue != [] && n.delivered == n.popped[1..] + [n.sender.queue[0]])
  }

  lemma SkippingMeans(n: Net, copies: seq<nat>)
    requires Skipping(n, copies) && n.resets == 0
    ensures FirstSkipped(n)
  {
    if !Refusing(n) {
      InvInOrder(Erase(n), copies);
      InOrderExactlyOnce(Erase(n), copies);
      assert n.submitted == [n.submitted[0]] + n.submitted[1..];
      assert n.popped == [n.popped[0]] + n.popped[1..];
      assert n.popped + n.sender.queue == [n.popped[0]] + (n.popped[1..] + n.sender.queue);
    }
  }

  /** A new session without resets, for every entry the address may have left behind. */
  lemma NewSession(n: Net, steps: seq<Step>)
    requires Fresh(n) && Run(n, steps).resets == 0
    ensures if n.entry == Some(1) then FirstSkipped(Run(n, steps)) else ExactlyOnce(Run(n, steps))
  {
    if n.entry == Some(1) {
      var copies := SkippingRun(n, steps, []);
      SkippingMeans(Run(n, steps), copies);
    } else {
      DeliveredExactlyOnce(n, steps);
    }
  }

  /** Once all of a nonempty submission is acknowledged: exactly-once if and only if the session did not find the
      entry at 1. */
  lemma NewSessionExactly(n: Net, steps: seq<Step>)
    requires Fresh(n) && Run(n, steps).resets == 0
    requires Run(n, steps).submitted != [] && Run(n, steps).sender.queue == []
    ensures Run(n, steps).delivered == Run(n, steps).submitted <==> n.entry != Some(1)
    ensures |Run(n, steps).delivered| == |Run(n, steps).submitted| - if n.entry == Some(1) then 1 else 0
  {
    NewSession(n, steps);
    var m := Run(n, steps);
    assert m.submitted == m.popped;
  }
}
