// When a client is pinged or reported lost.

module Hearing {
  import opened Bytes
  import opened Message
  import opened Client
  import opened ServerSpec
  import opened IndexTables
  import opened Runs
  import opened Newcomers
  import opened Connected
  import opened Beats

  // Pings, loss and status are counted from the last answer the client accepted (src/UdcClient.cpp:95-108, 141-159,
  // src/UdcServer.cpp:49-60, 386-406, 468-607). An answer is a pong or reliable handshake from its address; one stamped
  // in the future does not count.

  predicate Counts(beat: Beat) {
    (beat.Heard? || beat.Acknowledged?) && beat.stamp <= beat.time
  }

  function LastAnswer(beats: seq<Beat>): (last: Option<Beat>)
    ensures last.Some? ==> Counts(last.value)
  {
    if beats == [] then None
    else if Counts(beats[|beats| - 1]) then Some(beats[|beats| - 1])
    else LastAnswer(beats[..|beats| - 1])
  }

  /** When that was, or `start` if nothing has been heard. */
  function Since(beats: seq<Beat>, start: int): int {
    if LastAnswer(beats).Some? then LastAnswer(beats).value.time else start
  }

  /** Beat `k` is the last answer if it counts and none after it does. */
  lemma {:induction false} LastAnswerIs(beats: seq<Beat>, k: nat)
    requires k < |beats| && Counts(beats[k]) && forall i | k < i < |beats| :: !Counts(beats[i])
    ensures LastAnswer(beats) == Some(beats[k])
    decreases |beats|
  {
    if k + 1 < |beats| {
      LastAnswerIs(beats[..|beats| - 1], k);
    }
  }

  /** And there is none exactly if none counts. */
  lemma {:induction false} NoAnswer(beats: seq<Beat>)
    ensures LastAnswer(beats).None? <==> forall b <- beats :: !Counts(b)
    decreases |beats|
  {
    if beats != [] {
      var k := |beats| - 1;
      NoAnswer(beats[..k]);
      assert beats == beats[..k] + [beats[k]];
    }
  }

  lemma {:induction false} AnswerTimes(c: ClientState, beats: seq<Beat>)
    ensures var d := Through(c, beats);
            match LastAnswer(beats)
            case None => d.ping == c.ping && d.pingLastSetTime == c.pingLastSetTime
                         && d.lastReceivedTime == c.lastReceivedTime
            case Some(b) => d.ping == b.time - b.stamp && d.pingLastSetTime == b.time && d.lastReceivedTime == b.time
    decreases |beats|
  {
    if beats != [] {
      var k := |beats| - 1;
      AnswerTimes(c, beats[..k]);
      if beats[k].Pass? {
        Client.PollKeeps(Through(c, beats[..k]), beats[k].time);
      }
    }
  }

  /** A pass has come `period` or more after the last answer, and no answer since. */
  ghost predicate Overdue(beats: seq<Beat>, start: int, period: int) {
    exists k :: OverdueAt(beats, start, period, k)
  }

  predicate OverdueAt(beats: seq<Beat>, start: int, period: int, k: int) {
    && 0 <= k < |beats| && beats[k].Pass? && beats[k].time >= Since(beats, start) + period
    && forall i | k <= i < |beats| :: !Counts(beats[i])
  }

  lemma {:induction false} OverdueGrows(beats: seq<Beat>, beat: Beat, start: int, period: int)
    ensures var more := beats + [beat];
            Overdue(more, start, period)
            <==> !Counts(beat) && (Overdue(beats, start, period)
                                   || (beat.Pass? && beat.time >= Since(beats, start) + period))
  {
    var more := beats + [beat];
    assert more[..|beats|] == beats;
    if !Counts(beat) {
      assert Since(more, start) == Since(beats, start);
      if k :| OverdueAt(beats, start, period, k) {
        assert OverdueAt(more, start, period, k);
      }
      if beat.Pass? && beat.time >= Since(beats, start) + period {
        assert OverdueAt(more, start, period, |beats|);
      }
      if k :| OverdueAt(more, start, period, k) {
        assert k < |beats| ==> more[k] == beats[k] && OverdueAt(beats, start, period, k);
      }
    } else {
      assert Counts(more[|beats|]);
    }
  }

  /** The flag of a client that was connected: it is off exactly while a pass came too late after the last answer. */
  lemma {:induction false} FlagIs(c: ClientState, beats: seq<Beat>)
    requires c.connected
    ensures Through(c, beats).connected <==> !Overdue(beats, c.lastReceivedTime, c.connectionLostPeriod)
    decreases |beats|
  {
    if beats != [] {
      var k := |beats| - 1;
      FlagIs(c, beats[..k]);
      AnswerTimes(c, beats[..k]);
      ThroughKeeps(c, beats[..k]);
      assert beats == beats[..k] + [beats[k]];
      OverdueGrows(beats[..k], beats[k], c.lastReceivedTime, c.connectionLostPeriod);
      if beats[k].Pass? {
        Client.PollKeeps(Through(c, beats[..k]), beats[k].time);
      }
    }
  }

  // ---- servers ----

  /** The pass hands a PING to the socket. */
  ghost predicate SendsPing<R>(v: Server<R>, id: uint32, time: int)
    requires WF(v) && id in v.byId
  {
    Datagram(v.heap[v.byId[id]].outgoing, Wire(v.prefix, Packet.Ping(Low32(time)))) in PassSent(v, id, time)
  }

  lemma PingAmong(prefix: Signature, to: Address, packets: seq<Packet>, p: Packet)
    ensures Datagram(to, Wire(prefix, p)) in Datagrams(prefix, to, packets) <==> p in packets
  {
    var sent := Datagrams(prefix, to, packets);
    var d := Datagram(to, Wire(prefix, p));
    if d in sent {
      var i :| 0 <= i < |sent| && sent[i] == d;
      ParseWire(prefix, p);
      ParseWire(prefix, packets[i]);
    }
    if i :| 0 <= i < |packets| && packets[i] == p {
      assert sent[i] == d;
    }
  }

  lemma PingInPass(c: ClientState, time: int)
    ensures Packet.Ping(Low32(time)) in Poll(c, time).1 <==> NeedsPing(c, time)
  {
    Client.PollKeeps(c, time);
    if NeedsPing(c, time) {
      var packets := Poll(c, time).1;
      assert packets[|packets| - 1] == Packet.Ping(Low32(time));
    }
  }

  lemma PingIsDue<R>(v: Server<R>, r: R, time: int)
    requires Indexed(v, r)
    ensures SendsPing(v, v.heap[r].id, time) <==> NeedsPing(v.heap[r], time)
  {
    var c := v.heap[r];
    PassSentIs(v, c.id, time);
    PingAmong(v.prefix, c.outgoing, Poll(c, time).1, Packet.Ping(Low32(time)));
    PingInPass(c, time);
  }

  /** Over every run of a server after a connection was completed: a pass that reaches the endpoint sends it a PING if
      and only if it comes a ping period or more after the last answer; before the first answer, after time 0. */
  lemma PingsExactly<R>(s: Server<R>, r: R, connected: int, calls: seq<Call<R>>, order: seq<uint32>, time: int)
    requires JustConnected(s, r, connected) && Lawful(s, calls) && Stays(calls, s.heap[r].id)
    requires Visits(order, Final(s, NO_HISTORY, calls).0.byId.Keys)
    requires PollReaches(Final(s, NO_HISTORY, calls).0, s.heap[r].id, order, time)
    ensures var id := s.heap[r].id;
            var v := AtPoll(Final(s, NO_HISTORY, calls).0, id, order, time);
            && WF(v) && id in v.byId
            && (SendsPing(v, id, time) <==> time >= Since(RunBeats(s, r, id, calls), 0) + s.heap[r].pingPeriod)
  {
    var t := Final(s, NO_HISTORY, calls).0;
    var c := s.heap[r];
    var beats := RunBeats(s, r, c.id, calls);
    RunTells(s, NO_HISTORY, r, calls);
    AtPollSame(t, r, order, time);
    PingIsDue(AtPoll(t, c.id, order, time), r, time);
    AnswerTimes(c, beats);
    ThroughKeeps(c, beats);
  }

  lemma PollLoss<R>(s: Server<R>, r: R, order: seq<uint32>, time: int)
    requires Indexed(s, r) && Visits(order, s.byId.Keys)
    ensures ProcessEvents(s, order, time).event == Some(ConnectionLost(s.heap[r].id))
            <==> PollReaches(s, s.heap[r].id, order, time) && NeedsConnectionLostEvent(s.heap[r], time)
  {
    var c := s.heap[r];
    PollTells(s, r, order, time);
    var heard := PollShape(s, r, c.id, order, time);
    Client.PollKeeps(c, time);
    NoPassNoLoss(Next(c, Pass(time)), heard);
    NoPassNoLoss(c, heard);
    if PollReaches(s, c.id, order, time) {
      ThroughAppend(c, [Pass(time)], heard);
      ThroughOne(c, Pass(time));
    } else {
      assert [] + heard == heard;
    }
  }

  lemma {:induction false} NoPassNoLoss(c: ClientState, beats: seq<Beat>)
    requires forall b <- beats :: !b.Pass?
    ensures !LossIn(c, beats)
    decreases |beats|
  {
    if beats != [] {
      NoPassNoLoss(c, beats[..|beats| - 1]);
      assert beats[|beats| - 1] in beats;
    }
  }

  /** Over every run of a server after a connection was completed: a poll reports the endpoint lost if and only if it
      reaches it, comes the lost period or more after the last answer, or after the connection if there was none, and is
      the first such since. */
  lemma LossExactly<R>(s: Server<R>, r: R, connected: int, calls: seq<Call<R>>, order: seq<uint32>, time: int)
    requires JustConnected(s, r, connected) && Lawful(s, calls) && Stays(calls, s.heap[r].id)
    requires Visits(order, Final(s, NO_HISTORY, calls).0.byId.Keys)
    ensures var id := s.heap[r].id;
            var t := Final(s, NO_HISTORY, calls).0;
            var beats := RunBeats(s, r, id, calls);
            var period := s.heap[r].connectionLostPeriod;
            ProcessEvents(t, order, time).event == Some(ConnectionLost(id))
            <==> && PollReaches(t, id, order, time)
                 && time >= Since(beats, connected) + period && !Overdue(beats, connected, period)
  {
    var c := s.heap[r];
    var beats := RunBeats(s, r, c.id, calls);
    RunTells(s, NO_HISTORY, r, calls);
    PollLoss(Final(s, NO_HISTORY, calls).0, r, order, time);
    AnswerTimes(c, beats);
    ThroughKeeps(c, beats);
    FlagIs(c, beats);
  }

  /** In particular, from the SUCCESS at `connected` on, with nothing heard: the first poll to reach it at or after
      `connected` + lost period reports the loss, and no other does. */
  lemma FirstLoss<R>(s: Server<R>, r: R, connected: int, calls: seq<Call<R>>, order: seq<uint32>, time: int)
    requires JustConnected(s, r, connected) && Lawful(s, calls) && Stays(calls, s.heap[r].id)
    requires Visits(order, Final(s, NO_HISTORY, calls).0.byId.Keys)
    requires forall b <- RunBeats(s, r, s.heap[r].id, calls) :: !Counts(b)
    ensures var id := s.heap[r].id;
            var t := Final(s, NO_HISTORY, calls).0;
            var due := connected + s.heap[r].connectionLostPeriod;
            ProcessEvents(t, order, time).event == Some(ConnectionLost(id))
            <==> && PollReaches(t, id, order, time) && time >= due
                 && forall b <- RunBeats(s, r, id, calls) :: b.Pass? ==> b.time < due
  {
    var beats := RunBeats(s, r, s.heap[r].id, calls);
    var period := s.heap[r].connectionLostPeriod;
    LossExactly(s, r, connected, calls, order, time);
    NoAnswer(beats);
    if b :| b in beats && b.Pass? && b.time >= connected + period {
      var k :| 0 <= k < |beats| && beats[k] == b;
      assert OverdueAt(beats, connected, period, k);
    }
  }

  /** What the beats since a connection at `connected` say of its status: nothing while it is lost, and otherwise the
      time between the stamp of the last answer and its reception, modulo 2^32. */
  ghost function StatusFrom(beats: seq<Beat>, connected: int, period: int): Option<uint32> {
    if Overdue(beats, connected, period) then None
    else match LastAnswer(beats)
         case None => Some(0)
         case Some(b) => Some(Low32(b.time - b.stamp))
  }

  lemma StatusAfter(c: ClientState, beats: seq<Beat>, connected: int)
    requires Starts(c, connected)
    ensures var d := Through(c, beats);
            StatusFrom(beats, connected, c.connectionLostPeriod)
            == if d.connected then Some(Low32(d.ping)) else None
  {
    AnswerTimes(c, beats);
    FlagIs(c, beats);
  }

  /** The status of an endpoint is what its beats say. */
  lemma StatusIs<R>(s: Server<R>, r: R, connected: int, calls: seq<Call<R>>)
    requires JustConnected(s, r, connected) && Lawful(s, calls) && Stays(calls, s.heap[r].id)
    ensures var id := s.heap[r].id;
            GetStatus(Final(s, NO_HISTORY, calls).0, id)
            == StatusFrom(RunBeats(s, r, id, calls), connected, s.heap[r].connectionLostPeriod)
  {
    RunTells(s, NO_HISTORY, r, calls);
    StatusAfter(s.heap[r], RunBeats(s, r, s.heap[r].id, calls), connected);
  }
}
