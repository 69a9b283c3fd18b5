// When a connection whose pings are all answered is never reported LOST.

module Timing {
  import opened Bytes
  import opened Message
  import opened Client
  import opened ServerSpec

  // src/UdcClient.cpp:95-108, 141-159, src/UdcServer.cpp:386-406; and what the periods passed by udcTryConnectIPv4/6
  // make of it.

  /** One connected endpoint under observation: when it was polled last, and which pings still travel. */
  datatype Watch = Watch(c: ClientState, lastPoll: int, pings: seq<int>, now: int, lost: bool)

  datatype Move =
    | PollAt(time: int)
    | Answer(i: nat, time: int)
    | Acknowledge(state: ReliableState, stamp: uint32, time: int)

  function Do(w: Watch, move: Move): Watch {
    match move
    case PollAt(t) =>
      var (c, packets, lost) := Poll(w.c, t);
      Watch(c, t, if Ping(Low32(t)) in packets then w.pings + [t] else w.pings, t, w.lost || lost)
    case Answer(i, t) =>
      if i < |w.pings| then
        var c := if t < Low32(w.pings[i]) then w.c else ReceivePong(w.c, Low32(w.pings[i]), t);
        Watch(c, w.lastPoll, w.pings[..i] + w.pings[i + 1..], t, w.lost)
      else w.(now := t)
    case Acknowledge(state, stamp, t) =>
      w.(c := ReceiveReliableHandshake(w.c, state, stamp, t), now := t)
  }

  function DoAll(w: Watch, moves: seq<Move>): Watch
    decreases |moves|
  {
    if moves == [] then w else DoAll(Do(w, moves[0]), moves[1..])
  }

  /** The clock never goes back, polls are at most `d` apart, and every ping's pong is processed within `r`. */
  predicate Prompt(w: Watch, move: Move, d: int, r: int) {
    && w.now <= move.time
    && (move.PollAt? ==> move.time <= w.lastPoll + d)
    && (forall v <- w.pings :: move.time <= v + r)
  }

  ghost predicate PromptRun(w: Watch, moves: seq<Move>, d: int, r: int)
    decreases |moves|
  {
    moves != [] ==> Prompt(w, moves[0], d, r) && PromptRun(Do(w, moves[0]), moves[1..], d, r)
  }

  /** Just heard from: connected, no ping travelling, the last ping set no later than the last reception. */
  predicate JustHeard(w: Watch, pingPeriod: int, lostPeriod: int) {
    && w.c.connected && !w.lost && w.pings == []
    && w.c.pingPeriod == pingPeriod && w.c.connectionLostPeriod == lostPeriod
    && w.c.pingLastSetTime <= w.c.lastReceivedTime == w.now == w.lastPoll
    && w.now > 0
  }

  // ---- never lost ----

  /** Either the last poll came before a ping was due, or a ping sent soon after it was due still travels. */
  ghost predicate Watched(w: Watch, d: int) {
    && w.c.connected && !w.lost && w.c.pingPeriod >= 1
    && w.c.pingLastSetTime <= w.c.lastReceivedTime <= w.now && w.lastPoll <= w.now && w.now > 0
    && (forall v <- w.pings :: 0 < v <= w.now)
    && (|| w.lastPoll < w.c.lastReceivedTime + w.c.pingPeriod
        || exists v :: v in w.pings && v < w.c.lastReceivedTime + w.c.pingPeriod + d)
  }

  lemma PingIsSent(c: ClientState, t: int)
    ensures Ping(Low32(t)) in Poll(c, t).1 <==> NeedsPing(c, t)
  {
    var d := PollReliable(c, t).0;
    PollKeeps(c, t);
    assert NeedsPing(d, t) == NeedsPing(c, t);
    if NeedsPing(c, t) {
      assert Poll(c, t).1[|Poll(c, t).1| - 1] == Ping(Low32(t));
    }
  }

  lemma PollStaysWatched(w: Watch, t: int, d: int, r: int)
    requires Watched(w, d) && Prompt(w, PollAt(t), d, r) && r >= 0
    requires w.c.pingPeriod + d + r <= w.c.connectionLostPeriod
    ensures Watched(Do(w, PollAt(t)), d)
  {
    var w' := Do(w, PollAt(t));
    PollKeeps(w.c, t);
    PingIsSent(w.c, t);
    if w.lastPoll < w.c.lastReceivedTime + w.c.pingPeriod {
      if t >= w.c.lastReceivedTime + w.c.pingPeriod {
        assert w'.pings[|w'.pings| - 1] == t;
        assert t in w'.pings;
      }
    } else {
      var v :| v in w.pings && v < w.c.lastReceivedTime + w.c.pingPeriod + d;
      assert t <= v + r;
      assert v in w'.pings;
    }
  }

  lemma MoveStaysWatched(w: Watch, move: Move, d: int, r: int)
    requires Watched(w, d) && Prompt(w, move, d, r) && r >= 0
    requires w.c.pingPeriod + d + r <= w.c.connectionLostPeriod
    ensures Watched(Do(w, move), d) && SameIdentity(w.c, Do(w, move).c)
  {
    match move
    case PollAt(t) => PollStaysWatched(w, t, d, r); PollKeeps(w.c, t);
    case Answer(i, t) =>
      if i < |w.pings| {
        assert w.pings[i] in w.pings;
        assert Low32(w.pings[i]) <= w.pings[i] <= t;
        assert forall v <- Do(w, move).pings :: v in w.pings;
      }
    case Acknowledge(state, stamp, t) =>
  }

  lemma {:induction false} RunStaysWatched(w: Watch, moves: seq<Move>, d: int, r: int)
    requires Watched(w, d) && PromptRun(w, moves, d, r) && r >= 0
    requires w.c.pingPeriod + d + r <= w.c.connectionLostPeriod
    ensures !DoAll(w, moves).lost
    decreases |moves|
  {
    if moves != [] {
      MoveStaysWatched(w, moves[0], d, r);
      RunStaysWatched(Do(w, moves[0]), moves[1..], d, r);
    }
  }

  // ---- the bound is exact ----

  ghost predicate NeverLost(pingPeriod: int, lostPeriod: int, d: int, r: int) {
    forall w, moves :: JustHeard(w, pingPeriod, lostPeriod) && PromptRun(w, moves, d, r) ==> !DoAll(w, moves).lost
  }

  lemma {:induction false} Join(w: Watch, moves: seq<Move>, more: seq<Move>, d: int, r: int)
    requires PromptRun(w, moves, d, r) && PromptRun(DoAll(w, moves), more, d, r)
    ensures PromptRun(w, moves + more, d, r) && DoAll(w, moves + more) == DoAll(DoAll(w, moves), more)
    decreases |moves|
  {
    if moves == [] {
      assert moves + more == more;
    } else {
      Tail(moves, more);
      Join(Do(w, moves[0]), moves[1..], more, d, r);
    }
  }

  lemma Tail(moves: seq<Move>, more: seq<Move>)
    requires moves != []
    ensures (moves + more)[0] == moves[0] && (moves + more)[1..] == moves[1..] + more
  {
  }

  /** Polls alone, as far apart as allowed, until `target`: no ping is answered meanwhile. */
  lemma {:induction false} PollUntil(w: Watch, target: int, d: int, r: int) returns (moves: seq<Move>)
    requires d >= 1 && w.lastPoll == w.now <= target && (w.c.connected || w.lost) && r >= 0
    requires forall v <- w.pings :: target <= v + r
    requires target - r < w.now || target < w.c.pingLastSetTime + w.c.pingPeriod
    ensures PromptRun(w, moves, d, r)
    ensures var w' := DoAll(w, moves);
            && w'.lastPoll == w'.now == target && (w'.c.connected || w'.lost) && (w.lost ==> w'.lost)
            && SameIdentity(w.c, w'.c)
            && w'.c.lastReceivedTime == w.c.lastReceivedTime && w'.c.pingLastSetTime == w.c.pingLastSetTime
            && (target < w.c.pingLastSetTime + w.c.pingPeriod ==> w'.pings == w.pings)
            && (forall v <- w'.pings :: target <= v + r)
    decreases target - w.now
  {
    if w.now == target {
      return [];
    }
    var t := if w.now + d < target then w.now + d else target;
    var w1 := Do(w, PollAt(t));
    PollKeeps(w.c, t);
    PingIsSent(w.c, t);
    var rest := PollUntil(w1, target, d, r);
    moves := [PollAt(t)] + rest;
    assert moves[1..] == rest;
  }

  /** A client just answered: last ping and last reception at time `u`. */
  function JustAnswered(pingPeriod: int, lostPeriod: int, u: int): Watch {
    var c := NewClient(1, IPv4([127, 0, 0, 1], 2346), pingPeriod, lostPeriod);
    Watch(c.(connected := true, pingLastSetTime := u, lastReceivedTime := u), u, [], u, false)
  }

  /** The slowest run the premises allow: polled just before a ping is due, again `d` later, the answer `r` after
      that. */
  lemma SlowestRun(pingPeriod: int, lostPeriod: int, d: int, r: int) returns (w: Watch, moves: seq<Move>)
    requires pingPeriod >= 1 && d >= 1 && r >= 0 && pingPeriod + d + r > lostPeriod
    ensures JustHeard(w, pingPeriod, lostPeriod) && PromptRun(w, moves, d, r) && DoAll(w, moves).lost
  {
    w := JustAnswered(pingPeriod, lostPeriod, 1);
    var m1 := PollUntil(w, pingPeriod, d, r);
    var w1 := DoAll(w, m1);
    var due := pingPeriod + d;
    var w2 := Do(w1, PollAt(due));
    PollKeeps(w1.c, due);
    PingIsSent(w1.c, due);
    assert w1.pings == [];
    assert PromptRun(w2, [], d, r);
    assert PromptRun(w1, [PollAt(due)], d, r) && DoAll(w1, [PollAt(due)]) == w2;
    var m3 := LastStretch(w2, due + r, d, r);
    Join(w1, [PollAt(due)], m3, d, r);
    Join(w, m1, [PollAt(due)] + m3, d, r);
    moves := m1 + ([PollAt(due)] + m3);
  }

  /** The rest of the way to `target`, the final poll reporting the loss. */
  lemma LastStretch(w: Watch, target: int, d: int, r: int) returns (moves: seq<Move>)
    requires d >= 1 && r >= 0 && w.lastPoll == w.now == target - r && (w.c.connected || w.lost)
    requires forall v <- w.pings :: target <= v + r
    requires target - w.c.lastReceivedTime >= w.c.connectionLostPeriod
    ensures PromptRun(w, moves, d, r) && DoAll(w, moves).lost
  {
    moves := PollPings(w, target, d, r);
    var w1 := DoAll(w, moves);
    var w2 := Do(w1, PollAt(target));
    PollKeeps(w1.c, target);
    assert PromptRun(w2, [], d, r);
    assert PromptRun(w1, [PollAt(target)], d, r) && DoAll(w1, [PollAt(target)]) == w2;
    Join(w, moves, [PollAt(target)], d, r);
    moves := moves + [PollAt(target)];
  }

  /** Polls until `target`, whatever pings they send. */
  lemma {:induction false} PollPings(w: Watch, target: int, d: int, r: int) returns (moves: seq<Move>)
    requires d >= 1 && r >= 0 && target - r <= w.lastPoll == w.now <= target && (w.c.connected || w.lost)
    requires forall v <- w.pings :: target <= v + r
    ensures PromptRun(w, moves, d, r)
    ensures var w' := DoAll(w, moves);
            && w'.lastPoll == w'.now == target && (w'.c.connected || w'.lost)
            && SameIdentity(w.c, w'.c) && w'.c.lastReceivedTime == w.c.lastReceivedTime
            && (forall v <- w'.pings :: target <= v + r)
    decreases target - w.now
  {
    if w.now == target {
      return [];
    }
    var t := if w.now + d < target then w.now + d else target;
    PollKeeps(w.c, t);
    var rest := PollPings(Do(w, PollAt(t)), target, d, r);
    moves := [PollAt(t)] + rest;
    assert moves[1..] == rest;
  }

  /** Exactly when an answered connection is never reported LOST, in whole milliseconds. */
  lemma NeverLostExactly(pingPeriod: int, lostPeriod: int, d: int, r: int)
    requires pingPeriod >= 1 && d >= 1 && r >= 0
    ensures NeverLost(pingPeriod, lostPeriod, d, r) <==> pingPeriod + d + r <= lostPeriod
  {
    if pingPeriod + d + r <= lostPeriod {
      forall w, moves | JustHeard(w, pingPeriod, lostPeriod) && PromptRun(w, moves, d, r)
        ensures !DoAll(w, moves).lost
      {
        RunStaysWatched(w, moves, d, r);
      }
    } else {
      var w, moves := SlowestRun(pingPeriod, lostPeriod, d, r);
    }
  }

  // ---- when pings go out ----

  /** The move is an answer the client accepts. */
  predicate Refreshes(w: Watch, move: Move) {
    match move
    case PollAt(_) => false
    case Answer(i, t) => i < |w.pings| && Low32(w.pings[i]) <= t
    case Acknowledge(_, stamp, t) => stamp <= t
  }

  predicate Refreshless(w: Watch, moves: seq<Move>)
    decreases |moves|
  {
    moves != [] ==> !Refreshes(w, moves[0]) && Refreshless(Do(w, moves[0]), moves[1..])
  }

  lemma {:induction false} RefreshlessKeeps(w: Watch, moves: seq<Move>)
    requires Refreshless(w, moves)
    ensures SameIdentity(w.c, DoAll(w, moves).c) && DoAll(w, moves).c.pingLastSetTime == w.c.pingLastSetTime
    decreases |moves|
  {
    if moves != [] {
      if moves[0].PollAt? {
        PollKeeps(w.c, moves[0].time);
      }
      RefreshlessKeeps(Do(w, moves[0]), moves[1..]);
    }
  }

  /** After an answer accepted at time u, with none accepted since: a poll sends a ping if and only if it comes at or
      after u + ping period. */
  lemma PingsAfterAnswer(w: Watch, answer: Move, moves: seq<Move>, t: int)
    requires Refreshes(w, answer) && Refreshless(Do(w, answer), moves)
    ensures var v := DoAll(Do(w, answer), moves);
            Do(v, PollAt(t)).pings == if t >= answer.time + w.c.pingPeriod then v.pings + [t] else v.pings
  {
    var v := DoAll(Do(w, answer), moves);
    RefreshlessKeeps(Do(w, answer), moves);
    PingIsSent(v.c, t);
  }

  // ---- the periods passed ----

  /** No poll interval and no answer time, however short, protects a connection made through udcTryConnectIPv4/6. */
  lemma PassedPeriodsNeverSafe(timeout: uint32, d: int, r: int)
    requires timeout != 0 && d >= 1 && r >= 0
    ensures !NeverLost(PassedPingPeriod(timeout), PassedTimeoutPeriod(timeout), d, r)
  {
    NeverLostExactly(PassedPingPeriod(timeout), PassedTimeoutPeriod(timeout), d, r);
  }

  /** Nor is it a matter of bad luck: after an answer at time u no ping goes out before u + timeout, so without
      reliable traffic any poll from u + min(500, timeout / 10) on, and before that, reports the loss. */
  lemma SilentLinkIsLost(w: Watch, moves: seq<Move>, timeout: uint32, t: int)
    requires timeout != 0 && JustHeard(w, PassedPingPeriod(timeout), PassedTimeoutPeriod(timeout))
    requires w.c.pingLastSetTime == w.c.lastReceivedTime
    requires forall i | 0 <= i < |moves| :: moves[i].PollAt? && moves[i].time < w.c.lastReceivedTime + timeout
    requires w.c.lastReceivedTime + PassedTimeoutPeriod(timeout) <= t < w.c.lastReceivedTime + timeout
    ensures DoAll(w, moves + [PollAt(t)]).lost && DoAll(w, moves + [PollAt(t)]).pings == []
  {
    SilentPolls(w, moves, timeout, t);
  }

  lemma {:induction false} SilentPolls(w: Watch, moves: seq<Move>, timeout: uint32, t: int)
    requires w.c.pingPeriod == timeout && w.c.connectionLostPeriod == PassedTimeoutPeriod(timeout)
    requires w.pings == [] && (w.c.connected || w.lost) && w.c.pingLastSetTime == w.c.lastReceivedTime
    requires forall i | 0 <= i < |moves| :: moves[i].PollAt? && moves[i].time < w.c.lastReceivedTime + timeout
    requires w.c.lastReceivedTime + PassedTimeoutPeriod(timeout) <= t < w.c.lastReceivedTime + timeout
    ensures DoAll(w, moves + [PollAt(t)]).lost && DoAll(w, moves + [PollAt(t)]).pings == []
    decreases |moves|
  {
    if moves == [] {
      PollKeeps(w.c, t);
      PingIsSent(w.c, t);
      assert moves + [PollAt(t)] == [PollAt(t)];
      assert DoAll(Do(w, PollAt(t)), [PollAt(t)][1..]) == Do(w, PollAt(t));
    } else {
      assert (moves + [PollAt(t)])[1..] == moves[1..] + [PollAt(t)];
      PollKeeps(w.c, moves[0].time);
      PingIsSent(w.c, moves[0].time);
      SilentPolls(Do(w, moves[0]), moves[1..], timeout, t);
    }
  }
}
