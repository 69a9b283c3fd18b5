// The loss results for whole servers: every run of a server, seen from one connected client, is a run of the watch that
// `Timing` reasons about, with a poll for each pass that reaches the client and an answer for each pong.

module Pulse {
  import opened Bytes
  import opened Message
  import opened Client
  import opened ServerSpec
  import opened IndexTables
  import opened Runs
  import opened Newcomers
  import opened Connected
  import opened Timing
  import opened Beats

  /** The fields that decide about pings and losses. */
  predicate SamePulse(c: ClientState, d: ClientState) {
    && c.pingPeriod == d.pingPeriod && c.connectionLostPeriod == d.connectionLostPeriod && c.connected == d.connected
    && c.pingLastSetTime == d.pingLastSetTime && c.lastReceivedTime == d.lastReceivedTime
  }

  lemma PollPulse(c: ClientState, d: ClientState, time: int)
    requires SamePulse(c, d)
    ensures SamePulse(Poll(c, time).0, Poll(d, time).0) && Poll(c, time).2 == Poll(d, time).2
  {
    Client.PollKeeps(c, time);
    Client.PollKeeps(d, time);
  }

  lemma {:induction false} DoAllAppend(w: Watch, x: seq<Timing.Move>, y: seq<Timing.Move>)
    ensures DoAll(w, x + y) == DoAll(DoAll(w, x), y)
    decreases |x|
  {
    if x == [] {
      assert x + y == y;
    } else {
      assert (x + y)[1..] == x[1..] + y;
      DoAllAppend(Do(w, x[0]), x[1..], y);
    }
  }

  lemma DoOne(w: Watch, move: Timing.Move)
    ensures DoAll(w, [move]) == Do(w, move)
  {
    assert [move][1..] == [];
  }

  // ---- beats as moves of the watch ----

  /** The first ping in flight with this stamp. */
  function Find(pings: seq<int>, stamp: uint32): (i: nat)
    ensures i <= |pings|
  {
    if pings == [] || Low32(pings[0]) == stamp then 0 else 1 + Find(pings[1..], stamp)
  }

  /** A pong answers a ping in flight, or, if none has its stamp, counts like a reliable handshake that acknowledges
      nothing. */
  function Hear(w: Watch, stamp: uint32, time: int): Timing.Move {
    var i := Find(w.pings, stamp);
    if i < |w.pings| && Low32(w.pings[i]) == stamp then Answer(i, time)
    else Acknowledge(if w.c.reliableState == 0 then 1 else 0, stamp, time)
  }

  function BeatMoves(w: Watch, beat: Beat): seq<Timing.Move> {
    match beat
    case Pass(t) => [PollAt(t)]
    case Heard(stamp, t) => [Hear(w, stamp, t)]
    case Acknowledged(state, stamp, t) => [Acknowledge(state, stamp, t)]
    case Queued(_) => []
  }

  function Moves(w: Watch, beats: seq<Beat>): seq<Timing.Move> {
    if beats == [] then []
    else
      var before := Moves(w, beats[..|beats| - 1]);
      before + BeatMoves(DoAll(w, before), beats[|beats| - 1])
  }

  lemma BeatTracks(w: Watch, c: ClientState, beat: Beat)
    requires SamePulse(w.c, c)
    ensures var v := DoAll(w, BeatMoves(w, beat));
            SamePulse(v.c, Next(c, beat)) && v.lost == (w.lost || (beat.Pass? && Poll(c, beat.time).2))
  {
    if !beat.Queued? {
      DoOne(w, BeatMoves(w, beat)[0]);
    }
    if beat.Pass? {
      PollPulse(w.c, c, beat.time);
    }
  }

  lemma {:induction false} BeatsTrack(w: Watch, c: ClientState, beats: seq<Beat>)
    requires SamePulse(w.c, c)
    ensures var v := DoAll(w, Moves(w, beats));
            SamePulse(v.c, Through(c, beats)) && v.lost == (w.lost || LossIn(c, beats))
    decreases |beats|
  {
    if beats != [] {
      var k := |beats| - 1;
      var before := Moves(w, beats[..k]);
      BeatsTrack(w, c, beats[..k]);
      BeatTracks(DoAll(w, before), Through(c, beats[..k]), beats[k]);
      DoAllAppend(w, before, BeatMoves(DoAll(w, before), beats[k]));
    }
  }

  // ---- runs of a server ----

  /** The watch `w` is about client `r`, which has the id `id`. */
  predicate Tracks<R>(w: Watch, s: Server<R>, r: R, id: uint32) {
    r in s.heap && s.heap[r].id == id && SamePulse(w.c, s.heap[r])
  }

  /** What the run is to the watch. */
  ghost function RunMoves<R>(w: Watch, s: Server<R>, r: R, id: uint32, calls: seq<Call<R>>): seq<Timing.Move>
    requires WF(s) && Lawful(s, calls)
  {
    Moves(w, RunBeats(s, r, id, calls))
  }

  lemma RunTracks<R>(w: Watch, s: Server<R>, r: R, id: uint32, calls: seq<Call<R>>)
    requires Indexed(s, r) && Tracks(w, s, r, id) && Lawful(s, calls) && Stays(calls, id)
    ensures DoAll(w, RunMoves(w, s, r, id, calls)).lost == (w.lost || ReportsLost(s, id, calls))
  {
    RunTells(s, NO_HISTORY, r, calls);
    BeatsTrack(w, s.heap[r], RunBeats(s, r, id, calls));
  }

  /** No false LOST, for whole servers: in every run in which the clock does not go back, the passes that reach the
      client are at most `d` apart, and each of its pings is answered within `rt`, no poll reports it lost, if its
      periods allow for that. A poll that a timeout or another client's loss ends before the client's turn does not
      count, so it is the poll that returns nothing, and reaches everyone, that has to come often enough. */
  lemma NeverLostInRuns<R>(w: Watch, s: Server<R>, r: R, id: uint32, calls: seq<Call<R>>, d: int, rt: int)
    requires Indexed(s, r) && Tracks(w, s, r, id) && Lawful(s, calls) && Stays(calls, id)
    requires Watched(w, d) && rt >= 0 && w.c.pingPeriod + d + rt <= w.c.connectionLostPeriod
    requires PromptRun(w, RunMoves(w, s, r, id, calls), d, rt)
    ensures !ReportsLost(s, id, calls)
  {
    RunStaysWatched(w, RunMoves(w, s, r, id, calls), d, rt);
    RunTracks(w, s, r, id, calls);
  }

  /** The watch that begins when a connection is completed. */
  function NewWatch(c: ClientState, time: int): Watch {
    Watch(c, time, [], time, false)
  }

  /** That applies to every connection from the poll on that completes it, after whatever run of a new server. */
  lemma NeverLostAfterSuccess<R>(s: Server<R>, calls: seq<Call<R>>, order: seq<uint32>, time: int, more: seq<Call<R>>,
          d: int, rt: int)
    requires NewServer(s) && Lawful(s, calls) && Visits(order, Final(s, NO_HISTORY, calls).0.byId.Keys) && time > 0
    requires var o := ProcessEvents(Final(s, NO_HISTORY, calls).0, order, time);
             && IsSuccess(o.event) && WF(o.s) && o.event.value.id in o.s.byId
             && var id := o.event.value.id;
                var r := o.s.byId[id];
                var c := o.s.heap[r];
                && Lawful(o.s, more) && Stays(more, id)
                && c.pingPeriod >= 1 && rt >= 0 && c.pingPeriod + d + rt <= c.connectionLostPeriod
                && PromptRun(NewWatch(c, time), RunMoves(NewWatch(c, time), o.s, r, id, more), d, rt)
    ensures var o := ProcessEvents(Final(s, NO_HISTORY, calls).0, order, time);
            !ReportsLost(o.s, o.event.value.id, more)
  {
    SuccessIsJustConnected(s, calls, order, time);
    var o := ProcessEvents(Final(s, NO_HISTORY, calls).0, order, time);
    var id := o.event.value.id;
    var r := o.s.byId[id];
    NeverLostInRuns(NewWatch(o.s.heap[r], time), o.s, r, id, more, d, rt);
  }
}
