// Which reset rounds may deliver the message in hand again (src/UdcServer.cpp:351-384).

module Repetition {
  import opened Bytes
  import opened Message
  import opened ServerSpec
  import opened Protocol
  import opened ResetGuard

  // Exactly those begun when it was delivered before, or when a copy of it is still on its way.

  /** How often `x` was delivered beyond its first time. */
  function Repeats(delivered: seq<Msg>, x: Msg): nat {
    var k := multiset(delivered)[x];
    if k == 0 then 0 else k - 1
  }

  /** The message in hand was delivered before, or a copy of it is on its way. */
  ghost predicate OutThere(n: Net) {
    && n.sender.queue != [] && n.sender.reliableState != -1
    && (n.sender.queue[0] in n.delivered || CopyInFlight(n, n.sender.reliableState))
  }

  /** After the poll that begins a reset round, `steps` begin no other and deliver `x` once more than its first time or
      than it was delivered before. No two messages submitted look alike. */
  ghost predicate RepeatedBy(n: Net, steps: seq<Step>, x: Msg) {
    var m := Run(Apply(n, PollSender), steps);
    m.resets == n.resets + 1 && Distinct(m.submitted) && Repeats(m.delivered, x) > Repeats(n.delivered, x)
  }

  // ---- counting copies ----

  lemma {:induction false} RepeatCounts(x: Msg, k: nat, y: Msg)
    ensures multiset(Repeat(x, k))[y] == if y == x then k else 0
    decreases k
  {
    if k == 0 {
      assert Repeat(x, 0) == [];
    } else {
      RepeatCounts(x, k - 1, y);
      RepeatMore(x, k - 1);
    }
  }

  /** Each message was delivered as often as the copies say. */
  lemma {:induction false} ExpandCounts(s: seq<Msg>, copies: seq<nat>, k: nat)
    requires |copies| <= |s| && Distinct(s) && k < |s|
    ensures multiset(Expand(s, copies))[s[k]] == if k < |copies| then copies[k] else 0
    decreases |copies|
  {
    if copies != [] {
      var last := |copies| - 1;
      ExpandCounts(s, copies[..last], k);
      RepeatCounts(s[last], copies[last], s[k]);
    }
  }

  /** Extra copies add up: those of message `k` are among them. */
  lemma {:induction false} ExtraGrows(copies: seq<nat>, more: seq<nat>, k: nat)
    requires |copies| <= |more| && AtLeastOnce(copies) && AtLeastOnce(more) && k < |more|
    requires forall i | 0 <= i < |copies| :: copies[i] <= more[i]
    ensures Extra(more) >= Extra(copies) + more[k] - if k < |copies| then copies[k] else 1
    decreases |more|
  {
    var last := |more| - 1;
    var rest := if |copies| <= last then copies else copies[..last];
    assert |copies| <= last ==> rest == copies;
    if k < last {
      ExtraGrows(rest, more[..last], k);
    } else if last > 0 {
      ExtraGrows(rest, more[..last], 0);
    }
  }

  // ---- no copy, no repetition ----

  lemma {:induction false} RunGrows(n: Net, steps: seq<Step>)
    ensures n.delivered <= Run(n, steps).delivered && n.submitted <= Run(n, steps).submitted
    decreases |steps|
  {
    if steps != [] {
      RunGrows(Apply(n, steps[0]), steps[1..]);
    }
  }

  /** The count of resets is only a count. */
  lemma {:induction false} RunRenumbered(n: Net, k: nat, steps: seq<Step>)
    ensures n.resets <= Run(n, steps).resets
    ensures Run(n.(resets := k), steps) == Run(n, steps).(resets := Run(n, steps).resets - n.resets + k)
    decreases |steps|
  {
    if steps != [] {
      var n1 := Apply(n, steps[0]);
      var k1 := Apply(n.(resets := k), steps[0]).resets;
      assert Apply(n.(resets := k), steps[0]) == n1.(resets := k1) && k1 - k == n1.resets - n.resets >= 0;
      RunRenumbered(n1, k1, steps[1..]);
    }
  }

  lemma NotAhead(n: Net, copies: seq<nat>)
    requires Accounts(n, copies) && n.sender.queue != [] && n.sender.queue[0] !in n.delivered
    ensures Ahead(n, copies) == 0
  {
    assert n.submitted[|n.popped|] == n.sender.queue[0];
    if |n.popped| < |copies| {
      ExpandHas(n.submitted, copies, |n.popped|);
    }
  }

  /** With nothing of the message in hand out there, the round starts from the extra copies so far and adds none. */
  lemma RoundStartsEven(n: Net, copies: seq<nat>)
    requires Inv(n, copies) && Fires(n, PollSender) && MayFire(n) && !OutThere(n)
    ensures Extra(copies) >= 0 && Inv(Apply(n, PollSender).(resets := Extra(copies)), copies)
  {
    ExtraBounds(copies);
    NotAhead(n, copies);
    var n1 := Apply(n, PollSender).(resets := Extra(copies));
    var stage :| Stands(n, copies, stage);
    var b := stage.b;
    if Quiet(n) {
      assert !CopyInFlight(n1, b);
      assert Stands(n1, copies, Unseen(b, false));
    } else {
      assert Stands(n1, copies, Seen);
    }
  }

  lemma NoExtraCopy(n: Net, copies: seq<nat>, steps: seq<Step>) returns (more: seq<nat>)
    requires Inv(n, copies) && Fires(n, PollSender) && MayFire(n) && !OutThere(n)
    requires Run(Apply(n, PollSender), steps).resets == n.resets + 1
    ensures InOrder(Run(Apply(n, PollSender), steps), more) && Extra(more) <= Extra(copies)
  {
    RoundStartsEven(n, copies);
    var n1 := Apply(n, PollSender).(resets := Extra(copies));
    RunRenumbered(Apply(n, PollSender), Extra(copies), steps);
    ResetsGrow(n1, steps);
    more := RunKeepsInv(n1, steps, copies);
    InvInOrder(Run(n1, steps), more);
    InvInOrder(n, copies);
  }

  lemma NoRepetition(n: Net, copies: seq<nat>, steps: seq<Step>, x: Msg)
    requires Inv(n, copies) && Fires(n, PollSender) && MayFire(n) && !OutThere(n)
    ensures !RepeatedBy(n, steps, x)
  {
    var m := Run(Apply(n, PollSender), steps);
    if RepeatedBy(n, steps, x) {
      var more := NoExtraCopy(n, copies, steps);
      RunGrows(Apply(n, PollSender), steps);
      ExpandWithin(m.submitted, more);
      assert x in m.delivered;
      var k :| 0 <= k < |more| && m.submitted[k] == x;
      CountsGrow(n, copies, m, more);
      ExpandCounts(m.submitted, more, k);
      ExpandCountsPrefix(n.submitted, m.submitted, copies, k);
      ExtraGrows(copies, more, k);
    }
  }

  lemma ExpandCountsPrefix(s: seq<Msg>, t: seq<Msg>, copies: seq<nat>, k: nat)
    requires |copies| <= |s| && s <= t && Distinct(t) && k < |t|
    ensures multiset(Expand(s, copies))[t[k]] == if k < |copies| then copies[k] else 0
  {
    assert t == s + t[|s|..];
    ExpandExtend(s, t[|s|..], copies);
    ExpandCounts(t, copies, k);
  }

  lemma CountsGrow(n: Net, copies: seq<nat>, m: Net, more: seq<nat>)
    requires Accounts(n, copies) && Accounts(m, more) && Distinct(m.submitted)
    requires n.submitted <= m.submitted && n.delivered <= m.delivered
    ensures |copies| <= |more| && forall i | 0 <= i < |copies| :: copies[i] <= more[i]
  {
    assert m.delivered == n.delivered + m.delivered[|n.delivered|..];
    forall i | 0 <= i < |copies| ensures i < |more| && copies[i] <= more[i] {
      ExpandCounts(m.submitted, more, i);
      ExpandCountsPrefix(n.submitted, m.submitted, copies, i);
    }
  }

  // ---- a copy, and a repetition ----

  /** A copy of the front message is delivered, what is ahead of it in the channel being lost. */
  lemma CopyArrives(n: Net, b: Bit, i: nat) returns (steps: seq<Step>)
    requires i < |n.fwd| && Current(n.fwd[i].packet, b, n.sender.queue) && (n.entry == Some(b) || n.entry == None)
    ensures var m := Run(n, steps); m == n.(fwd := m.fwd, bwd := m.bwd, entry := m.entry, delivered := m.delivered)
    ensures Run(n, steps).delivered == n.delivered + [n.sender.queue[0]]
  {
    var n1 := n.(fwd := n.fwd[i..]);
    FrontArrives(n1, b);
    steps := DropForwardTo(n, 0, i, n.fwd[i..]);
    var m: Net;
    steps, m := Then(n, steps, n1, DeliverForward);
  }

  lemma FrontArrives(n: Net, b: Bit)
    requires n.fwd != [] && n.sender.queue != [] && Current(n.fwd[0].packet, b, n.sender.queue)
    requires n.entry == Some(b) || n.entry == None
    ensures var m := Apply(n, DeliverForward);
            && m == n.(fwd := m.fwd, bwd := m.bwd, entry := m.entry, delivered := m.delivered)
            && m.delivered == n.delivered + [n.sender.queue[0]]
  {
  }

  /** Everything in flight lost. */
  lemma Emptied(n: Net) returns (steps: seq<Step>)
    ensures Run(n, steps) == n.(fwd := [], bwd := [])
  {
    steps := DropForwardTo(n, 0, |n.fwd|, []);
    var n1 := n.(fwd := []);
    var more := DropReply(n1, 0, |n.bwd|);
    assert n.bwd[..0] + n.bwd[|n.bwd|..] == [];
    RunConcat(n, steps, more);
    steps := steps + more;
  }

  /** Nothing left of the past, and late enough for every stamp to be accepted. */
  lemma Cleared(n: Net) returns (steps: seq<Step>)
    ensures var m := Run(n, steps); m == n.(fwd := [], bwd := [], now := m.now) && m.now >= 0x1_0000_0000
  {
    steps := Emptied(n);
    var m: Net;
    steps, m := Then(n, steps, n.(fwd := [], bwd := []),
                     Tick(if n.now < 0x1_0000_0000 then 0x1_0000_0000 else n.now));
  }

  /** A reset round run through: RESET, HANDSHAKE_RESET, and the front message from bit 0 again. */
  lemma RoundDelivers(n: Net) returns (steps: seq<Step>)
    requires n.sender.reliableState == -1 && n.sender.reliableSentTime == 0 && n.sender.queue != []
    ensures var m := Run(n, steps);
            && m.delivered == n.delivered + [n.sender.queue[0]]
            && m.submitted == n.submitted && m.resets == n.resets
  {
    steps := Cleared(n);
    var m := Run(n, steps);
    steps, m := Then(n, steps, m, PollSender);
    assert m.fwd == [InFlight(ReliableReset(Low32(m.now)), m.now)] && m.sender == n.sender && m.resets == n.resets;
    steps, m := Then(n, steps, m, DeliverForward);
    assert m.entry == ReceiveReset(n.entry) && m.fwd == [] && m.delivered == n.delivered;
    steps, m := Then(n, steps, m, DeliverReply);
    assert m.sender.reliableState == 0 && m.sender.queue == n.sender.queue && m.sender.reliableSentTime == 0;
    steps, m := Then(n, steps, m, PollSender);
    assert m.fwd == [InFlight(Reliable(0, Low32(m.now), n.sender.queue[0]), m.now)] && m.resets == n.resets;
    steps, m := Then(n, steps, m, DeliverForward);
  }

  lemma ArrivesAndRepeats(n: Net, b: Bit) returns (steps: seq<Step>)
    requires n.sender.reliableState == -1 && n.sender.reliableSentTime == 0 && n.sender.queue != []
    requires CopyInFlight(n, b) && (n.entry == Some(b) || n.entry == None)
    ensures var m := Run(n, steps);
            && m.delivered == n.delivered + [n.sender.queue[0]] + [n.sender.queue[0]]
            && m.submitted == n.submitted && m.resets == n.resets
  {
    var i :| 0 <= i < |n.fwd| && Current(n.fwd[i].packet, b, n.sender.queue);
    steps := CopyArrives(n, b, i);
    var more := RoundDelivers(Run(n, steps));
    RunConcat(n, steps, more);
    steps := steps + more;
  }

  lemma RoundRepeats(n: Net, copies: seq<nat>) returns (steps: seq<Step>)
    requires Inv(n, copies) && Fires(n, PollSender) && Distinct(n.submitted) && OutThere(n)
    ensures RepeatedBy(n, steps, n.sender.queue[0])
  {
    var n1 := Apply(n, PollSender);
    var x := n.sender.queue[0];
    var stage :| Stands(n, copies, stage);
    if x in n.delivered {
      steps := RoundDelivers(n1);
    } else {
      NotAhead(n, copies);
      steps := ArrivesAndRepeats(n1, stage.b);
    }
  }

  // ---- the exact condition ----

  /** A reset round begun when it may delivers the message in hand once more, in some continuation without another
      round, if and only if the message was delivered before or a copy of it is on its way. If neither, no continuation
      without another round repeats any message. */
  lemma RoundRepeatsExactly(n: Net, copies: seq<nat>)
    requires Inv(n, copies) && Fires(n, PollSender) && MayFire(n) && Distinct(n.submitted)
    ensures OutThere(n) <==> exists steps :: RepeatedBy(n, steps, n.sender.queue[0])
    ensures !OutThere(n) ==> forall steps, x :: !RepeatedBy(n, steps, x)
  {
    if OutThere(n) {
      var steps := RoundRepeats(n, copies);
      assert RepeatedBy(n, steps, n.sender.queue[0]);
    } else {
      forall steps, x ensures !RepeatedBy(n, steps, x) {
        NoRepetition(n, copies, steps, x);
      }
    }
  }

  /** In particular wherever a guarded run from a fresh start may lead. */
  lemma RoundRepeatsOnRuns(start: Net, steps: seq<Step>)
    requires Fresh(start) && start.entry != Some(1) && Guarded(start, steps)
    requires var n := Run(start, steps); Fires(n, PollSender) && MayFire(n) && Distinct(n.submitted)
    ensures var n := Run(start, steps);
            && (OutThere(n) <==> exists more :: RepeatedBy(n, more, n.sender.queue[0]))
            && (!OutThere(n) ==> forall more, x :: !RepeatedBy(n, more, x))
  {
    FreshInv(start);
    var copies := RunKeepsInv(start, steps, []);
    RoundRepeatsExactly(Run(start, steps), copies);
  }

  // ---- whole runs ----

  /** How many reset rounds of the run were begun with the message in hand out there. */
  ghost function Risks(n: Net, steps: seq<Step>): nat
    decreases |steps|
  {
    if steps == [] then 0
    else (if Fires(n, steps[0]) && OutThere(n) then 1 else 0) + Risks(Apply(n, steps[0]), steps[1..])
  }

  lemma OneRisk(n: Net, step: Step)
    ensures Risks(n, [step]) == if Fires(n, step) && OutThere(n) then 1 else 0
  {
    assert [step][1..] == [];
  }

  /** Risks are rounds. */
  lemma {:induction false} RisksAreRounds(n: Net, steps: seq<Step>)
    ensures Risks(n, steps) <= Run(n, steps).resets - n.resets
    decreases |steps|
  {
    if steps != [] {
      RisksAreRounds(Apply(n, steps[0]), steps[1..]);
    }
  }

  lemma {:induction false} RisksConcat(n: Net, steps: seq<Step>, more: seq<Step>)
    ensures Risks(n, steps + more) == Risks(n, steps) + Risks(Run(n, steps), more)
    decreases |steps|
  {
    if steps == [] {
      assert steps + more == more;
    } else {
      assert (steps + more)[1..] == steps[1..] + more;
      RisksConcat(Apply(n, steps[0]), steps[1..], more);
    }
  }

  lemma MoreRounds(n: Net, k: nat, copies: seq<nat>)
    requires Inv(n, copies) && n.resets <= k
    ensures Inv(n.(resets := k), copies)
  {
    var stage :| Stands(n, copies, stage);
    assert Stands(n.(resets := k), copies, stage);
  }

  /** A round begun with nothing of the message in hand out there need not be counted. */
  lemma RiskStep(n: Net, step: Step, k: nat, copies: seq<nat>) returns (more: seq<nat>)
    requires Inv(n.(resets := k), copies) && (Fires(n, step) ==> MayFire(n))
    ensures Inv(Apply(n, step).(resets := k + if Fires(n, step) && OutThere(n) then 1 else 0), more)
  {
    var m := n.(resets := k);
    if Fires(n, step) && !OutThere(n) {
      more := copies;
      RoundStartsEven(m, copies);
      InvInOrder(m, copies);
      MoreRounds(Apply(m, PollSender).(resets := Extra(copies)), k, copies);
    } else {
      more := StepKeeps(m, step, copies);
    }
  }

  lemma {:induction false} RunCountsRisks(n: Net, steps: seq<Step>, k: nat, copies: seq<nat>) returns (more: seq<nat>)
    requires Inv(n.(resets := k), copies) && Guarded(n, steps)
    ensures Inv(Run(n, steps).(resets := k + Risks(n, steps)), more)
    decreases |steps|
  {
    more := copies;
    if steps != [] {
      more := RiskStep(n, steps[0], k, copies);
      more := RunCountsRisks(Apply(n, steps[0]), steps[1..],
                             k + if Fires(n, steps[0]) && OutThere(n) then 1 else 0, more);
    }
  }

  /** Over every guarded run: in order and without loss, with at most one extra copy per reset round begun with the
      message in hand out there; rounds begun after the message was lost without trace cost nothing. */
  lemma InOrderWithRisks(n: Net, steps: seq<Step>) returns (copies: seq<nat>)
    requires Fresh(n) && n.entry != Some(1) && Guarded(n, steps)
    ensures InOrder(Run(n, steps).(resets := Risks(n, steps)), copies)
  {
    FreshInv(n);
    assert n.(resets := 0) == n;
    copies := RunCountsRisks(n, steps, 0, []);
    InvInOrder(Run(n, steps).(resets := Risks(n, steps)), copies);
  }

  /** So exactly once, however many reset rounds, if none of them was begun at that risk. */
  lemma OnceWithoutRisk(n: Net, steps: seq<Step>)
    requires Fresh(n) && n.entry != Some(1) && Guarded(n, steps) && Risks(n, steps) == 0
    ensures ExactlyOnce(Run(n, steps))
  {
    var copies := InOrderWithRisks(n, steps);
    InOrderExactlyOnce(Run(n, steps).(resets := 0), copies);
  }
}
