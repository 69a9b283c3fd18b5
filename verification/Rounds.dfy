// When a reset round begins.

module Rounds {
  import opened Bytes
  import opened Message
  import opened Client
  import opened ServerSpec
  import opened Protocol
  import opened Runs
  import opened Newcomers
  import opened Connected
  import opened LinkSender
  import opened LinkReply
  import opened Beats

  // Exactly when the message in hand was first sent a reliable timeout ago or more, counted since it came to the front
  // of the queue or the last round ended, however often it was sent again (src/UdcClient.cpp:118-139,
  // src/UdcServer.cpp:346-384, 579-595). The times are read off the packets that leave.

  /** A reliable message left at this time, or the sender moved on: the front message was popped, or a reset round
      began or ended. */
  datatype Mark = Sent(time: int) | MovedOn

  /** When the message in hand was first sent. */
  function FirstSent(marks: seq<Mark>): Option<int> {
    if marks == [] then None
    else
      var before := FirstSent(marks[..|marks| - 1]);
      match marks[|marks| - 1]
      case MovedOn => None
      case Sent(t) => if before.None? then Some(t) else before
  }

  /** Mark `k` is the first message sent since the sender moved on. */
  predicate FirstAt(marks: seq<Mark>, k: int, t: int) {
    && 0 <= k < |marks| && marks[k] == Sent(t) && (k > 0 ==> marks[k - 1] == MovedOn)
    && forall i | k <= i < |marks| :: marks[i].Sent?
  }

  lemma {:induction false} FirstSentExactly(marks: seq<Mark>, t: int)
    ensures FirstSent(marks) == Some(t) <==> exists k :: FirstAt(marks, k, t)
    ensures FirstSent(marks) == None <==> marks == [] || marks[|marks| - 1] == MovedOn
    decreases |marks|
  {
    if marks != [] {
      var n := |marks| - 1;
      FirstSentExactly(marks[..n], t);
      if FirstSent(marks[..n]) == Some(t) && marks[n].Sent? {
        var k :| FirstAt(marks[..n], k, t);
        assert FirstAt(marks, k, t);
      }
      if FirstSent(marks[..n]) == None && marks[n] == Sent(t) {
        assert FirstAt(marks, n, t);
      }
      forall k | FirstAt(marks, k, t) && k < n ensures FirstAt(marks[..n], k, t) {
      }
    }
  }

  lemma FirstSentMore(marks: seq<Mark>, mark: Mark)
    ensures FirstSent(marks + [mark])
            == match mark
               case MovedOn => None
               case Sent(t) => if FirstSent(marks).None? then Some(t) else FirstSent(marks)
  {
    assert (marks + [mark])[..|marks|] == marks;
  }

  /** The sender moves on from `c` to `d`. */
  predicate MovesOn(c: ClientState, d: ClientState) {
    |d.queue| < |c.queue| || d.reliableState != c.reliableState
  }

  function MoveMark(c: ClientState, d: ClientState): seq<Mark> {
    if MovesOn(c, d) then [MovedOn] else []
  }

  /** The timer tells when the message in hand was first sent. */
  predicate Shows(c: ClientState, marks: seq<Mark>) {
    && (match FirstSent(marks)
        case None => c.reliableSentTime == 0
        case Some(t) => c.reliableSentTime == t && t > 0)
    && (c.reliableSentTime != 0 ==> c.queue != [] && c.reliableState != -1)
  }

  // ---- one client ----

  /** What a pass sends of the queue. */
  function SentMark(out: Option<Packet>, time: int): seq<Mark> {
    if out.Some? && out.value.Reliable? then [Sent(time)] else []
  }

  lemma PassShows(c: ClientState, marks: seq<Mark>, time: int)
    requires Shows(c, marks) && time > 0
    ensures var (d, out) := PollReliable(c, time); Shows(d, marks + SentMark(out, time) + MoveMark(c, d))
  {
    var (d, out) := PollReliable(c, time);
    if c.queue != [] && c.reliableState != -1 {
      if NeedsReliableReset(c, time) {
        FirstSentMore(marks, MovedOn);
        assert marks + [] + [MovedOn] == marks + [MovedOn];
      } else {
        FirstSentMore(marks, Sent(time));
        assert marks + [Sent(time)] + [] == marks + [Sent(time)];
      }
    } else {
      assert marks + [] + [] == marks;
    }
  }

  /** Answers leave queue, bit and timer alone, or stop the timer and move on; they never bring back what they moved on
      from. */
  predicate Released(c: ClientState, d: ClientState) {
    && |d.queue| <= |c.queue|
    && (|| (d.queue == c.queue && d.reliableState == c.reliableState && d.reliableSentTime == c.reliableSentTime)
        || (d.reliableSentTime == 0
            && (|| |d.queue| < |c.queue| || c.queue == []
                || (d.queue == c.queue && c.reliableState == -1 && d.reliableState == 0))))
  }

  lemma {:induction false} AnswersRelease(c: ClientState, beats: seq<Beat>)
    requires forall b <- beats :: b.Heard? || b.Acknowledged?
    ensures Released(c, Through(c, beats))
    decreases |beats|
  {
    if beats != [] {
      AnswersRelease(c, beats[..|beats| - 1]);
      assert beats[|beats| - 1] in beats;
    }
  }

  lemma ReleaseShows(c: ClientState, d: ClientState, marks: seq<Mark>, more: seq<Mark>)
    requires Shows(c, marks + more) && Released(c, d)
    ensures Shows(d, marks + (more + MoveMark(c, d)))
  {
    Associative(marks, more, MoveMark(c, d));
    if MovesOn(c, d) {
      FirstSentMore(marks + more, MovedOn);
    } else {
      assert marks + more + [] == marks + more;
    }
  }

  /** So a pass begins a round exactly when the timeout has passed since then. */
  lemma ShowsWhenRoundBegins(c: ClientState, marks: seq<Mark>, time: int)
    requires Shows(c, marks)
    ensures c.reliableState != -1 && PollReliable(c, time).0.reliableState == -1
            <==> FirstSent(marks).Some? && time >= FirstSent(marks).value + c.reliableTimeoutPeriod
  {
  }

  // ---- runs of the protocol ----

  /** What one step of the protocol shows: the message it puts into the channel, and whether the sender moved on. */
  function StepMarks(n: Net, step: Step): seq<Mark> {
    var m := Apply(n, step);
    (if step.PollSender? && |m.fwd| > |n.fwd| && m.fwd[|n.fwd|].packet.Reliable? then [Sent(m.fwd[|n.fwd|].born)]
     else [])
    + MoveMark(n.sender, m.sender)
  }

  function NetMarks(n: Net, steps: seq<Step>): seq<Mark>
    decreases |steps|
  {
    if steps == [] then [] else StepMarks(n, steps[0]) + NetMarks(Apply(n, steps[0]), steps[1..])
  }

  /** The clock shows positive times. */
  predicate Positive(n: Net, steps: seq<Step>) {
    n.now > 0 && forall i | 0 <= i < |steps| :: steps[i].Tick? ==> steps[i].t > 0
  }

  lemma StepShows(n: Net, marks: seq<Mark>, step: Step)
    requires Shows(n.sender, marks) && n.now > 0
    ensures Shows(Apply(n, step).sender, marks + StepMarks(n, step))
    ensures Apply(n, step).sender.reliableTimeoutPeriod == n.sender.reliableTimeoutPeriod
  {
    var m := Apply(n, step);
    match step
    case PollSender =>
      PassShows(n.sender, marks, n.now);
      var out := PollReliable(n.sender, n.now).1;
      assert StepMarks(n, step) == SentMark(out, n.now) + MoveMark(n.sender, m.sender);
      Associative(marks, SentMark(out, n.now), MoveMark(n.sender, m.sender));
    case DeliverReply =>
      assert Released(n.sender, m.sender);
      assert marks + [] == marks && StepMarks(n, step) == [] + MoveMark(n.sender, m.sender);
      ReleaseShows(n.sender, m.sender, marks, []);
    case _ =>
      assert marks + [] == marks;
  }

  lemma {:induction false} NetShows(n: Net, marks: seq<Mark>, steps: seq<Step>)
    requires Shows(n.sender, marks) && Positive(n, steps)
    ensures Shows(Run(n, steps).sender, marks + NetMarks(n, steps))
    ensures Run(n, steps).sender.reliableTimeoutPeriod == n.sender.reliableTimeoutPeriod
    decreases |steps|
  {
    if steps == [] {
      assert marks + [] == marks;
    } else {
      StepShows(n, marks, steps[0]);
      NetShows(Apply(n, steps[0]), marks + StepMarks(n, steps[0]), steps[1..]);
      Associative(marks, StepMarks(n, steps[0]), NetMarks(Apply(n, steps[0]), steps[1..]));
    }
  }

  /** Over every run of the protocol under a positive clock, guarded or not: the next poll begins a reset round if and
      only if the message in hand was first sent the timeout ago or more. No earlier: an acknowledgement restarts the
      count. No later: sending again does not. */
  lemma RoundBeginsExactly(n: Net, steps: seq<Step>)
    requires Fresh(n) && Positive(n, steps)
    ensures var m := Run(n, steps);
            var since := FirstSent(NetMarks(n, steps));
            m.sender.reliableState != -1 && Apply(m, PollSender).sender.reliableState == -1
            <==> since.Some? && m.now >= since.value + n.sender.reliableTimeoutPeriod
  {
    NetShows(n, [], steps);
    assert [] + NetMarks(n, steps) == NetMarks(n, steps);
    ShowsWhenRoundBegins(Run(n, steps).sender, NetMarks(n, steps), Run(n, steps).now);
  }

  // ---- runs of a server ----

  predicate CarriesMessage(d: Datagram) {
    |d.bytes| > 4 && (d.bytes[4] == RELIABLE_0 || d.bytes[4] == RELIABLE_1)
  }

  /** What the pass of a poll shows of the client, if it is reached: whether a reliable message is among the datagrams
      it hands to the socket, and whether the sender moved on. */
  ghost function PassMarks<R>(s: Server<R>, r: R, order: seq<uint32>, time: int): seq<Mark>
    requires Indexed(s, r) && forall i <- order :: i in s.byId
  {
    var id := s.heap[r].id;
    if !PollReaches(s, id, order, time) then []
    else
      AtPollSame(s, r, order, time);
      var v := AtPoll(s, id, order, time);
      (if exists d <- PassSent(v, id, time) :: CarriesMessage(d) then [Sent(time)] else [])
      + MoveMark(s.heap[r], UpdateClient(v, id, time).s.heap[r])
  }

  /** The client after the passes of a poll. */
  ghost function AfterPass<R>(s: Server<R>, r: R, order: seq<uint32>, time: int): ClientState
    requires Indexed(s, r) && forall i <- order :: i in s.byId
  {
    var id := s.heap[r].id;
    if !PollReaches(s, id, order, time) then s.heap[r]
    else
      AtPollSame(s, r, order, time);
      UpdateClient(AtPoll(s, id, order, time), id, time).s.heap[r]
  }

  ghost function CallMarks<R>(s: Server<R>, r: R, call: Call<R>): seq<Mark>
    requires Indexed(s, r) && Legal(s, call)
  {
    if !call.Process? then []
    else
      CallTells(s, r, call);
      PassMarks(s, r, call.order, call.time)
      + MoveMark(AfterPass(s, r, call.order, call.time), After(s, call).s.heap[r])
  }

  ghost function RunMarks<R>(s: Server<R>, r: R, calls: seq<Call<R>>): seq<Mark>
    requires Indexed(s, r) && Lawful(s, calls) && Stays(calls, s.heap[r].id)
    decreases |calls|
  {
    if calls == [] then []
    else
      CallWF(s, calls[0]);
      CallIndexed(s, r, calls[0]);
      CallMarks(s, r, calls[0]) + RunMarks(After(s, calls[0]).s, r, calls[1..])
  }

  /** Only the reliable stage of a pass sends a message, and it sends it first. */
  lemma OneMessage(c: ClientState, time: int)
    ensures var out := PollReliable(c, time).1;
            var packets := Poll(c, time).1;
            && (out.Some? ==> packets != [] && packets[0] == out.value)
            && forall i | 0 <= i < |packets| && packets[i].Reliable? :: out == Some(packets[i])
  {
  }

  lemma SentMessages(c: ClientState, time: int, prefix: Signature)
    ensures var out := PollReliable(c, time).1;
            (exists d <- Datagrams(prefix, c.outgoing, Poll(c, time).1) :: CarriesMessage(d))
            <==> out.Some? && out.value.Reliable?
  {
    var packets := Poll(c, time).1;
    OneMessage(c, time);
    MessagesAmong(prefix, c.outgoing, packets);
  }

  lemma MessagesAmong(prefix: Signature, to: Address, packets: seq<Packet>)
    ensures (exists d <- Datagrams(prefix, to, packets) :: CarriesMessage(d))
            <==> exists i | 0 <= i < |packets| :: packets[i].Reliable?
  {
    var sent := Datagrams(prefix, to, packets);
    if i :| 0 <= i < |packets| && packets[i].Reliable? {
      WireCarries(prefix, to, packets[i]);
      assert sent[i] in sent;
    }
    if d :| d in sent && CarriesMessage(d) {
      var i :| 0 <= i < |sent| && sent[i] == d;
      WireCarries(prefix, to, packets[i]);
    }
  }

  lemma WireCarries(prefix: Signature, to: Address, p: Packet)
    ensures CarriesMessage(Datagram(to, Wire(prefix, p))) <==> p.Reliable?
  {
    assert Wire(prefix, p)[4] == Tag(p);
  }

  lemma PassIs<R>(v: Server<R>, r: R, time: int)
    requires Indexed(v, r)
    ensures var c := v.heap[r];
            var (d, out) := PollReliable(c, time);
            var t := UpdateClient(v, c.id, time).s;
            && ((exists x <- PassSent(v, c.id, time) :: CarriesMessage(x)) <==> out.Some? && out.value.Reliable?)
            && r in t.heap && t.heap[r] == Next(c, Pass(time)) && MoveMark(c, t.heap[r]) == MoveMark(c, d)
  {
    var c := v.heap[r];
    PassSentIs(v, c.id, time);
    SentMessages(c, time, v.prefix);
    UpdateClientIsPoll(v, c.id, time);
    Client.PollKeeps(c, time);
  }

  lemma PassMarksAre<R>(s: Server<R>, r: R, order: seq<uint32>, time: int)
    requires Indexed(s, r) && forall i <- order :: i in s.byId
    ensures var c := s.heap[r];
            var (d, out) := PollReliable(c, time);
            if PollReaches(s, c.id, order, time)
            then PassMarks(s, r, order, time) == SentMark(out, time) + MoveMark(c, d)
                 && AfterPass(s, r, order, time) == Next(c, Pass(time))
            else PassMarks(s, r, order, time) == [] && AfterPass(s, r, order, time) == c
  {
    if PollReaches(s, s.heap[r].id, order, time) {
      AtPollSame(s, r, order, time);
      PassIs(AtPoll(s, s.heap[r].id, order, time), r, time);
    }
  }

  /** The rest of the poll is answers. */
  lemma PollReleases<R>(s: Server<R>, r: R, order: seq<uint32>, time: int)
    requires Indexed(s, r) && Visits(order, s.byId.Keys)
    ensures r in ProcessEvents(s, order, time).s.heap
    ensures Released(AfterPass(s, r, order, time), ProcessEvents(s, order, time).s.heap[r])
  {
    var c := s.heap[r];
    var heard := PollShape(s, r, c.id, order, time);
    PassMarksAre(s, r, order, time);
    PollTells(s, r, order, time);
    AnswersRelease(AfterPass(s, r, order, time), heard);
    if PollReaches(s, c.id, order, time) {
      ThroughAppend(c, [Pass(time)], heard);
      ThroughOne(c, Pass(time));
    } else {
      assert [] + heard == heard;
    }
  }

  lemma PassesShow<R>(s: Server<R>, r: R, marks: seq<Mark>, order: seq<uint32>, time: int)
    requires Indexed(s, r) && Visits(order, s.byId.Keys) && Shows(s.heap[r], marks) && time > 0
    ensures Shows(AfterPass(s, r, order, time), marks + PassMarks(s, r, order, time))
  {
    var c := s.heap[r];
    PassMarksAre(s, r, order, time);
    if PollReaches(s, c.id, order, time) {
      PassShows(c, marks, time);
      var (d, out) := PollReliable(c, time);
      Client.PollKeeps(c, time);
      Associative(marks, SentMark(out, time), MoveMark(c, d));
    } else {
      assert marks + [] == marks;
    }
  }

  lemma CallShows<R>(s: Server<R>, r: R, marks: seq<Mark>, call: Call<R>)
    requires Indexed(s, r) && Legal(s, call) && Shows(s.heap[r], marks) && (call.Process? ==> call.time > 0)
    ensures r in After(s, call).s.heap && Shows(After(s, call).s.heap[r], marks + CallMarks(s, r, call))
  {
    if call.Process? {
      PassesShow(s, r, marks, call.order, call.time);
      PollReleases(s, r, call.order, call.time);
      ReleaseShows(AfterPass(s, r, call.order, call.time), After(s, call).s.heap[r],
                   marks, PassMarks(s, r, call.order, call.time));
    } else {
      CallTells(s, r, call);
      assert marks + [] == marks;
      var beats := CallBeats(s, r, s.heap[r].id, call);
      if beats != [] {
        ThroughOne(s.heap[r], beats[0]);
      }
    }
  }

  /** Polls happen at positive times. */
  ghost predicate PositivePolls<R>(calls: seq<Call<R>>) {
    forall i | 0 <= i < |calls| :: calls[i].Process? ==> calls[i].time > 0
  }

  lemma {:induction false} RunShows<R>(s: Server<R>, h: Ledger.History, r: R, marks: seq<Mark>, calls: seq<Call<R>>)
    requires Indexed(s, r) && Lawful(s, calls) && Stays(calls, s.heap[r].id) && PositivePolls(calls)
    requires Shows(s.heap[r], marks)
    ensures r in Final(s, h, calls).0.heap && Shows(Final(s, h, calls).0.heap[r], marks + RunMarks(s, r, calls))
    decreases |calls|
  {
    if calls == [] {
      assert marks + [] == marks;
    } else {
      var o := After(s, calls[0]);
      CallShows(s, r, marks, calls[0]);
      CallIndexed(s, r, calls[0]);
      RunShows(o.s, HistoryAfter(s, h, calls[0]), r, marks + CallMarks(s, r, calls[0]), calls[1..]);
      Associative(marks, CallMarks(s, r, calls[0]), RunMarks(o.s, r, calls[1..]));
    }
  }

  /** The passes of a poll begin a round exactly if they reach the client and its pass does. */
  lemma RoundIsPass<R>(s: Server<R>, r: R, order: seq<uint32>, time: int)
    requires Indexed(s, r) && Visits(order, s.byId.Keys)
    ensures var c := s.heap[r];
            PollBeginsRound(s, r, order, time)
            <==> && PollReaches(s, c.id, order, time)
                 && c.reliableState != -1 && PollReliable(c, time).0.reliableState == -1
  {
    var c := s.heap[r];
    PendingTells(s, r, time);
    var o := UpdatePendingClients(s, time);
    if o.event.None? {
      LoopTells(o.s, r, order, time);
      ThroughOne(c, Pass(time));
    }
  }

  /** Over every run of a server after a connection was completed, whatever else it does: a poll begins a reset round
      for the endpoint if and only if it reaches the endpoint and the message in hand was first sent the timeout ago or
      more. */
  lemma RoundBeginsOnServers<R>(s: Server<R>, r: R, connected: int, calls: seq<Call<R>>, order: seq<uint32>, time: int)
    requires JustConnected(s, r, connected) && Lawful(s, calls) && Stays(calls, s.heap[r].id) && PositivePolls(calls)
    requires Visits(order, Final(s, NO_HISTORY, calls).0.byId.Keys)
    ensures var t := Final(s, NO_HISTORY, calls).0;
            var since := FirstSent(RunMarks(s, r, calls));
            PollBeginsRound(t, r, order, time)
            <==> && PollReaches(t, s.heap[r].id, order, time)
                 && since.Some? && time >= since.value + s.heap[r].reliableTimeoutPeriod
  {
    var t := Final(s, NO_HISTORY, calls).0;
    RunTells(s, NO_HISTORY, r, calls);
    ThroughKeeps(s.heap[r], RunBeats(s, r, s.heap[r].id, calls));
    RunShows(s, NO_HISTORY, r, [], calls);
    assert [] + RunMarks(s, r, calls) == RunMarks(s, r, calls);
    RoundIsPass(t, r, order, time);
    ShowsWhenRoundBegins(t.heap[r], RunMarks(s, r, calls), time);
  }
}
