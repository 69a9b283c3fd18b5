// What the caller is told of an endpoint agrees with what it can ask of it (src/UdcServer.cpp:49-60, 111-134,
// include/udp_connect.h:20-34): the status and the fate of an unreliable message follow from the events reported.

module Status {
  import opened Bytes
  import opened Message
  import opened Client
  import opened ServerSpec
  import opened Ledger
  import opened Runs

  /** The last connection event reported of the endpoint. */
  function LastEvent(h: History, id: uint32): Option<Event> {
    var events := EventsOf(h, id);
    if events == [] then None else Some(events[|events| - 1])
  }

  /** Reported connected last, and not disconnected since. */
  predicate ToldUp(h: History, id: uint32) {
    LastEvent(h, id) in {Some(ConnectionSuccess(id)), Some(ConnectionRegained(id))} && id !in h.disconnected
  }

  /** Reported lost last, and not disconnected since. */
  predicate ToldLost(h: History, id: uint32) {
    LastEvent(h, id) == Some(ConnectionLost(id)) && id !in h.disconnected
  }

  /** Whoever timed out was reported so. */
  ghost predicate TimeoutsTold(h: History) {
    forall id <- h.timedOut :: ConnectionTimeout(id) in EventsOf(h, id)
  }

  lemma RecordTold(h: History, event: Option<Event>)
    requires TimeoutsTold(h)
    ensures TimeoutsTold(Record(h, event))
  {
    if event.Some? && !event.value.ReceiveMessage? {
      var k := Record(h, event);
      forall id <- k.timedOut ensures ConnectionTimeout(id) in EventsOf(k, id) {
        HeardEvents(h, event.value.id, event.value, id);
        assert event == Some(ConnectionTimeout(id)) ==> EventsOf(k, id)[|EventsOf(h, id)|] == ConnectionTimeout(id);
      }
    }
  }

  lemma {:induction false} RunTold<R>(s: Server<R>, h: History, calls: seq<Call<R>>)
    requires WF(s) && Lawful(s, calls) && TimeoutsTold(h)
    ensures TimeoutsTold(Final(s, h, calls).1)
    decreases |calls|
  {
    if calls != [] {
      CallWF(s, calls[0]);
      RecordTold(h, After(s, calls[0]).event);
      RunTold(After(s, calls[0]).s, HistoryAfter(s, h, calls[0]), calls[1..]);
    }
  }

  lemma StoryEnds(id: uint32, events: seq<Event>)
    requires Story(id, events) && events != []
    ensures events[|events| - 1] in {ConnectionSuccess(id), ConnectionLost(id), ConnectionRegained(id)}
    ensures ConnectionTimeout(id) !in events
  {
    var n := |events| - 1;
    assert events[n] == if n == 0 then ConnectionSuccess(id)
                        else if n % 2 == 1 then ConnectionLost(id) else ConnectionRegained(id);
  }

  /** An endpoint that was told of and has not left is under its id, its flag up unless it was lost last. */
  lemma ToldIsIndexed<R>(s: Server<R>, h: History, id: uint32)
    requires Book(s, h) && TimeoutsTold(h)
    ensures Flag(s, id) == if ToldUp(h, id) then Some(true) else if ToldLost(h, id) then Some(false) else None
  {
    assert Consistent(id, EventsOf(h, id), Flag(s, id), id in h.timedOut || id in h.disconnected);
    if Story(id, EventsOf(h, id)) && EventsOf(h, id) != [] {
      StoryEnds(id, EventsOf(h, id));
    }
    if id in s.byId {
      IndexedNotGone(s, h, id);
    }
  }

  lemma RunIndexed<R>(s: Server<R>, calls: seq<Call<R>>, id: uint32)
    requires NewServer(s) && Lawful(s, calls) && HonestRun(s, calls)
    ensures var (t, h) := Final(s, NO_HISTORY, calls);
            Flag(t, id) == if ToldUp(h, id) then Some(true) else if ToldLost(h, id) then Some(false) else None
  {
    BookAlways(s, calls);
    RunTold(s, NO_HISTORY, calls);
    ToldIsIndexed(Final(s, NO_HISTORY, calls).0, Final(s, NO_HISTORY, calls).1, id);
  }

  /** After every honest run: there is a status if and only if the last event reported of the endpoint is SUCCESS or
      REGAINED and it was not disconnected since. */
  lemma StatusAsTold<R>(s: Server<R>, calls: seq<Call<R>>, id: uint32)
    requires NewServer(s) && Lawful(s, calls) && HonestRun(s, calls)
    ensures var (t, h) := Final(s, NO_HISTORY, calls); GetStatus(t, id).Some? <==> ToldUp(h, id)
  {
    RunIndexed(s, calls, id);
  }

  /** And an unreliable message that fits is accepted if and only if the endpoint was reported connected or lost last
      and not disconnected since; it leaves as one datagram while connected, and not at all while lost. */
  lemma UnreliableAsTold<R>(s: Server<R>, calls: seq<Call<R>>, id: uint32, data: seq<byte>)
    requires NewServer(s) && Lawful(s, calls) && HonestRun(s, calls) && |data| < 0x1_0000_0000
    ensures var (t, h) := Final(s, NO_HISTORY, calls);
            var (u, accepted) := SendUnreliable(t, id, data);
            var fits := FitsBuffer(t.bufferSize, HEADER_SIZE, |data|);
            && (accepted <==> fits && (ToldUp(h, id) || ToldLost(h, id)))
            && if accepted && ToldUp(h, id)
               then id in t.byId && t.byId[id] in t.heap && u == t.(outbox := t.outbox
                    + [Datagram(t.heap[t.byId[id]].outgoing, Wire(t.prefix, Unreliable(data)))])
               else u == t
  {
    RunIndexed(s, calls, id);
  }
}
