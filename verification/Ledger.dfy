// Endpoint ids over whole runs of one server: where each id is, in which order outcomes are reported, that the two
// indexes agree, and which connection events an endpoint can see. Here is what each single operation keeps of this: the
// id book always, the index book if a handshake it accepts comes from the address the client sends to. `Runs` puts the
// operations together.

module Ledger {
  import opened Bytes
  import opened Message
  import opened Client
  import opened ServerSpec

  /** What the caller has seen: ids of SUCCESS and TIMEOUT events in order, the ids timed out, the ids
      disconnected while pending or connected, and the connection events of each endpoint in order. */
  datatype History = History(
    outcomes: seq<uint32>,
    timedOut: set<uint32>,
    disconnected: set<uint32>,
    events: map<uint32, seq<Event>>)

  function EventsOf(h: History, id: uint32): seq<Event> {
    if id in h.events then h.events[id] else []
  }

  function Heard(h: History, id: uint32, e: Event): History {
    h.(events := h.events[id := EventsOf(h, id) + [e]])
  }

  function Record(h: History, event: Option<Event>): History {
    match event
    case Some(ConnectionSuccess(id)) => Heard(h, id, event.value).(outcomes := h.outcomes + [id])
    case Some(ConnectionTimeout(id)) =>
      Heard(h, id, event.value).(outcomes := h.outcomes + [id], timedOut := h.timedOut + {id})
    case Some(ConnectionLost(id)) => Heard(h, id, event.value)
    case Some(ConnectionRegained(id)) => Heard(h, id, event.value)
    case _ => h
  }

  // ---- the invariant ----

  ghost function PendingIds<R>(s: Server<R>): (ids: seq<uint32>)
    requires WF(s)
    ensures |ids| == |s.pending| && forall i | 0 <= i < |ids| :: ids[i] == s.heap[s.pending[i]].id
  {
    seq(|s.pending|, i requires 0 <= i < |s.pending| => s.heap[s.pending[i]].id)
  }

  predicate Increasing(ids: seq<uint32>) {
    forall i, j | 0 <= i < j < |ids| :: ids[i] < ids[j]
  }

  /** Ids of clients are issued ids, and no two clients share one. */
  ghost predicate KnownIds<R>(s: Server<R>) {
    && (forall r <- s.heap :: 1 <= s.heap[r].id <= s.idCounter)
    && (forall r, t | r in s.heap && t in s.heap && s.heap[r].id == s.heap[t].id :: r == t)
  }

  /** Outcomes come in the order of the connect calls. */
  ghost predicate Ordered<R>(s: Server<R>, h: History)
    requires WF(s)
  {
    Increasing(h.outcomes + PendingIds(s)) && forall id <- h.outcomes :: id <= s.idCounter
  }

  /** In how many of the four places an id is. */
  ghost function Places<R>(s: Server<R>, h: History, id: uint32): int
    requires WF(s)
  {
    (if id in PendingIds(s) then 1 else 0) + (if id in s.byId then 1 else 0)
    + (if id in h.timedOut then 1 else 0) + (if id in h.disconnected then 1 else 0)
  }

  ghost predicate Partition<R>(s: Server<R>, h: History)
    requires WF(s)
  {
    forall id: uint32 :: Places(s, h, id) == if 1 <= id <= s.idCounter then 1 else 0
  }

  /** The two indexes hold the same clients, each under its own id and its own outgoing address. */
  ghost predicate Agreement<R>(s: Server<R>)
    requires WF(s)
  {
    && (forall id <- s.byId ::
          var c := s.heap[s.byId[id]];
          c.id == id && c.outgoing in s.byAddress && s.byAddress[c.outgoing] == s.byId[id])
    && (forall a <- s.byAddress ::
          var c := s.heap[s.byAddress[a]];
          c.outgoing == a && c.id in s.byId && s.byId[c.id] == s.byAddress[a])
  }

  /** SUCCESS, then LOST and REGAINED in turn. */
  predicate Story(id: uint32, events: seq<Event>) {
    forall i | 0 <= i < |events| ::
      events[i] == if i == 0 then ConnectionSuccess(id)
                   else if i % 2 == 1 then ConnectionLost(id)
                   else ConnectionRegained(id)
  }

  /** The connected flag of an indexed endpoint. */
  function Flag<R>(s: Server<R>, id: uint32): Option<bool>
    requires WF(s)
  {
    if id in s.byId then Some(s.heap[s.byId[id]].connected) else None
  }

  /** The events `events` of one endpoint, against its flag while it is indexed and whether it has left. */
  predicate Consistent(id: uint32, events: seq<Event>, flag: Option<bool>, left: bool) {
    && (Story(id, events) || events == [ConnectionTimeout(id)])
    && (events != [] ==> flag.Some? || left)
    && (flag.Some? ==> Story(id, events) && events != [] && flag.value == !events[|events| - 1].ConnectionLost?)
  }

  ghost predicate Speech<R>(s: Server<R>, h: History)
    requires WF(s)
  {
    forall id: uint32 :: Consistent(id, EventsOf(h, id), Flag(s, id), id in h.timedOut || id in h.disconnected)
  }

  /** Where the ids are. Nothing here depends on addresses. */
  ghost predicate IdBook<R>(s: Server<R>, h: History) {
    WF(s) && KnownIds(s) && Ordered(s, h) && Partition(s, h)
  }

  /** What the indexes and the events say of the connected endpoints. */
  ghost predicate IndexBook<R>(s: Server<R>, h: History)
    requires WF(s)
  {
    Agreement(s) && Speech(s, h)
  }

  ghost predicate Book<R>(s: Server<R>, h: History) {
    IdBook(s, h) && IndexBook(s, h)
  }

  /** No connection event is about an endpoint that timed out or was disconnected. */
  ghost predicate Live(h: History, event: Option<Event>) {
    event.Some? && !event.value.ReceiveMessage? ==> event.value.id !in h.timedOut && event.value.id !in h.disconnected
  }

  /** What an operation keeps: the id book always, the index book if the handshake it accepts, if any, is `honest`. */
  ghost predicate Keeps<R>(s: Server<R>, h: History, o: Outcome<R>, honest: bool) {
    && WF(s) && IdBook(o.s, Record(h, o.event))
    && (IndexBook(s, h) ==> Live(h, o.event) && (honest ==> IndexBook(o.s, Record(h, o.event))))
  }

  // ---- steps that change nothing the book is about ----

  ghost predicate SameBook<R>(s: Server<R>, t: Server<R>) {
    && s.idCounter == t.idCounter && s.pending == t.pending && s.byId == t.byId && s.byAddress == t.byAddress
    && s.heap.Keys == t.heap.Keys
    && (forall r <- s.heap :: SameIdentity(s.heap[r], t.heap[r]) && s.heap[r].connected == t.heap[r].connected)
  }

  lemma SameIndexBook<R>(s: Server<R>, t: Server<R>, h: History)
    requires WF(s) && WF(t) && SameBook(s, t) && IndexBook(s, h)
    ensures IndexBook(t, h)
  {
    assert forall id: uint32 :: Flag(t, id) == Flag(s, id);
  }

  lemma SameBookKeeps<R>(s: Server<R>, t: Server<R>, h: History)
    requires IdBook(s, h) && WF(t) && SameBook(s, t)
    ensures IdBook(t, h) && (IndexBook(s, h) ==> IndexBook(t, h))
  {
    SameIdsKeep(s, t, h, h);
    if IndexBook(s, h) {
      SameIndexBook(s, t, h);
    }
  }

  lemma SameIdsKeep<R>(s: Server<R>, t: Server<R>, h: History, k: History)
    requires IdBook(s, h) && WF(t)
    requires s.idCounter == t.idCounter && s.pending == t.pending && s.byId == t.byId && s.heap.Keys == t.heap.Keys
    requires forall r <- s.heap :: s.heap[r].id == t.heap[r].id
    requires k.outcomes == h.outcomes && k.timedOut == h.timedOut && k.disconnected == h.disconnected
    ensures IdBook(t, k)
  {
    assert PendingIds(t) == PendingIds(s);
    assert forall id': uint32 :: Places(t, k, id') == Places(s, h, id');
  }

  // ---- steps that report an event ----

  /** The head of the pending ids moves to the end of the outcomes. */
  lemma HeadMoves(outcomes: seq<uint32>, id: uint32, rest: seq<uint32>)
    requires Increasing(outcomes + ([id] + rest))
    ensures id !in rest && id !in outcomes
    ensures Increasing(outcomes + [id] + rest)
  {
    var all := outcomes + ([id] + rest);
    Associative(outcomes, [id], rest);
    assert all[|outcomes|] == id;
    assert forall i | 0 <= i < |rest| :: all[|outcomes| + 1 + i] == rest[i];
    assert forall i | 0 <= i < |outcomes| :: all[i] == outcomes[i];
  }

  lemma FrontLeaves<R>(s: Server<R>, t: Server<R>)
    requires WF(s) && WF(t) && s.pending != [] && t.pending == s.pending[1..]
    requires s.heap.Keys == t.heap.Keys && (forall r <- s.heap :: SameIdentity(s.heap[r], t.heap[r]))
    ensures PendingIds(s) == [s.heap[s.pending[0]].id] + PendingIds(t)
  {
    assert forall i | 0 <= i < |t.pending| :: t.pending[i] == s.pending[i + 1];
  }

  /** The ids after the first pending client left with an outcome. */
  lemma OutcomeKeeps<R>(s: Server<R>, t: Server<R>, h: History, k: History)
    requires IdBook(s, h) && WF(t) && s.pending != [] && t.pending == s.pending[1..] && t.idCounter == s.idCounter
    requires s.heap.Keys == t.heap.Keys && (forall r <- s.heap :: SameIdentity(s.heap[r], t.heap[r]))
    requires k.outcomes == h.outcomes + [s.heap[s.pending[0]].id] && k.disconnected == h.disconnected
    requires var id := s.heap[s.pending[0]].id;
             || (t.byId == s.byId && k.timedOut == h.timedOut + {id})
             || (t.byId == s.byId[id := s.pending[0]] && k.timedOut == h.timedOut)
    ensures IdBook(t, k)
    ensures var id := s.heap[s.pending[0]].id; id !in s.byId && id !in h.timedOut && id !in h.disconnected
  {
    var id := s.heap[s.pending[0]].id;
    FrontLeaves(s, t);
    HeadMoves(h.outcomes, id, PendingIds(t));
    assert PendingIds(s)[0] == id;
    assert Places(s, h, id) == 1;
    forall id': uint32 ensures Places(t, k, id') == if 1 <= id' <= t.idCounter then 1 else 0 {
      OutcomePlaces(s, t, h, k, id');
    }
  }

  /** It moves from the pending ids to the indexed or the timed out ones. */
  lemma OutcomePlaces<R>(s: Server<R>, t: Server<R>, h: History, k: History, id': uint32)
    requires IdBook(s, h) && WF(t) && s.pending != [] && t.idCounter == s.idCounter && k.disconnected == h.disconnected
    requires var id := s.heap[s.pending[0]].id;
             && PendingIds(s) == [id] + PendingIds(t) && id !in PendingIds(t) && Places(s, h, id) == 1
             && ((t.byId == s.byId && k.timedOut == h.timedOut + {id})
                 || (t.byId == s.byId[id := s.pending[0]] && k.timedOut == h.timedOut))
    ensures Places(t, k, id') == if 1 <= id' <= t.idCounter then 1 else 0
  {
    assert Places(s, h, id') == if 1 <= id' <= s.idCounter then 1 else 0;
    assert id' in PendingIds(s) <==> id' == s.heap[s.pending[0]].id || id' in PendingIds(t);
  }

  /** An id that is neither indexed nor gone has had no event yet. */
  lemma UnheardOf<R>(s: Server<R>, h: History, id: uint32)
    requires WF(s) && Speech(s, h) && id !in s.byId && id !in h.timedOut && id !in h.disconnected
    ensures EventsOf(h, id) == []
  {
    assert Consistent(id, EventsOf(h, id), Flag(s, id), id in h.timedOut || id in h.disconnected);
  }

  lemma TimeoutKeeps<R>(s: Server<R>, h: History)
    requires IdBook(s, h) && s.pending != []
    ensures Keeps(s, h, Outcome(s.(pending := s.pending[1..]), Some(ConnectionTimeout(s.heap[s.pending[0]].id))), true)
  {
    var t := s.(pending := s.pending[1..]);
    var id := s.heap[s.pending[0]].id;
    OutcomeKeeps(s, t, h, Record(h, Some(ConnectionTimeout(id))));
    if IndexBook(s, h) {
      UnheardOf(s, h, id);
      TimeoutSpeaks(s, t, id, h);
    }
  }

  lemma TimeoutSpeaks<R>(s: Server<R>, t: Server<R>, id: uint32, h: History)
    requires WF(s) && WF(t) && Speech(s, h) && EventsOf(h, id) == [] && id !in s.byId
    requires t.byId == s.byId && t.heap == s.heap
    ensures Speech(t, Record(h, Some(ConnectionTimeout(id))))
  {
    var k := Record(h, Some(ConnectionTimeout(id)));
    forall id': uint32
      ensures Consistent(id', EventsOf(k, id'), Flag(t, id'), id' in k.timedOut || id' in k.disconnected)
    {
      HeardEvents(h, id, ConnectionTimeout(id), id');
      assert Consistent(id', EventsOf(h, id'), Flag(s, id'), id' in h.timedOut || id' in h.disconnected);
    }
  }

  lemma AcceptAgrees<R>(s: Server<R>, from: Address, id: uint32, time: int)
    requires WF(s) && WF(AcceptConnection(s, from, id, time).s)
    requires KnownIds(s) && Agreement(s) && id !in s.byId
    requires AcceptConnection(s, from, id, time).event.Some?
    ensures Agreement(AcceptConnection(s, from, id, time).s) <==> from == s.heap[s.pending[0]].outgoing
  {
    var t := AcceptConnection(s, from, id, time).s;
    var r := s.pending[0];
    assert t.byAddress[from] == r && t.heap[r].outgoing == s.heap[r].outgoing;
    if from == s.heap[r].outgoing {
      OneMoreAgrees(s, t, r);
    }
  }

  lemma OneMoreAgrees<R>(s: Server<R>, t: Server<R>, r: R)
    requires WF(s) && WF(t) && KnownIds(s) && Agreement(s) && r in s.heap && t.heap.Keys == s.heap.Keys
    requires var c := s.heap[r];
             && c.id !in s.byId && c.outgoing !in s.byAddress
             && t.byId == s.byId[c.id := r] && t.byAddress == s.byAddress[c.outgoing := r]
    requires forall q <- s.heap :: SameIdentity(s.heap[q], t.heap[q])
    ensures Agreement(t)
  {
    assert forall id <- s.byId :: s.byId[id] != r;
    assert forall a <- s.byAddress :: s.byAddress[a] != r;
    forall id <- t.byId ensures var c := t.heap[t.byId[id]];
        c.id == id && c.outgoing in t.byAddress && t.byAddress[c.outgoing] == t.byId[id] {
      if id != s.heap[r].id {
        assert t.byId[id] == s.byId[id];
      }
    }
    forall a <- t.byAddress ensures var c := t.heap[t.byAddress[a]];
        c.outgoing == a && c.id in t.byId && t.byId[c.id] == t.byAddress[a] {
      if a != s.heap[r].outgoing {
        assert t.byAddress[a] == s.byAddress[a];
      }
    }
  }

  lemma HeardEvents(h: History, id: uint32, e: Event, id': uint32)
    ensures EventsOf(Heard(h, id, e), id') == if id' == id then EventsOf(h, id) + [e] else EventsOf(h, id')
  {
  }

  lemma AcceptSpeaks<R>(s: Server<R>, t: Server<R>, id: uint32, h: History)
    requires WF(s) && WF(t) && Speech(s, h) && EventsOf(h, id) == []
    requires forall id': uint32 :: Flag(t, id') == if id' == id then Some(true) else Flag(s, id')
    ensures Speech(t, Record(h, Some(ConnectionSuccess(id))))
  {
    var k := Record(h, Some(ConnectionSuccess(id)));
    forall id': uint32
      ensures Consistent(id', EventsOf(k, id'), Flag(t, id'), id' in k.timedOut || id' in k.disconnected)
    {
      HeardEvents(h, id, ConnectionSuccess(id), id');
      assert Consistent(id', EventsOf(h, id'), Flag(s, id'), id' in h.timedOut || id' in h.disconnected);
    }
  }

  lemma AcceptKeeps<R>(s: Server<R>, from: Address, id: uint32, time: int, h: History)
    requires IdBook(s, h) && AcceptConnection(s, from, id, time).event.Some?
    ensures Keeps(s, h, AcceptConnection(s, from, id, time), from == s.heap[s.pending[0]].outgoing)
  {
    var o := AcceptConnection(s, from, id, time);
    AcceptConnectionWF(s, from, id, time);
    OutcomeKeeps(s, o.s, h, Record(h, o.event));
    if IndexBook(s, h) {
      AcceptKeepsIndexes(s, from, id, time, h);
    }
  }

  lemma AcceptKeepsIndexes<R>(s: Server<R>, from: Address, id: uint32, time: int, h: History)
    requires IdBook(s, h) && IndexBook(s, h) && AcceptConnection(s, from, id, time).event.Some?
    requires WF(AcceptConnection(s, from, id, time).s) && id !in s.byId && id !in h.timedOut && id !in h.disconnected
    ensures from == s.heap[s.pending[0]].outgoing
            ==> IndexBook(AcceptConnection(s, from, id, time).s, Record(h, Some(ConnectionSuccess(id))))
  {
    UnheardOf(s, h, id);
    AcceptAgrees(s, from, id, time);
    AcceptFlags(s, from, id, time);
    AcceptSpeaks(s, AcceptConnection(s, from, id, time).s, id, h);
  }

  lemma AcceptFlags<R>(s: Server<R>, from: Address, id: uint32, time: int)
    requires WF(s) && WF(AcceptConnection(s, from, id, time).s) && Agreement(s) && id !in s.byId
    requires AcceptConnection(s, from, id, time).event.Some?
    ensures var t := AcceptConnection(s, from, id, time).s;
            forall id': uint32 :: Flag(t, id') == if id' == id then Some(true) else Flag(s, id')
  {
    assert forall id' <- s.byId :: s.byId[id'] != s.pending[0];
  }

  function Toggle(id: uint32, connected: bool): Event {
    if connected then ConnectionLost(id) else ConnectionRegained(id)
  }

  lemma StoryGrows(id: uint32, events: seq<Event>, connected: bool)
    requires Consistent(id, events, Some(connected), false)
    ensures Consistent(id, events + [Toggle(id, connected)], Some(!connected), false)
  {
    var n := |events|;
    assert events[n - 1].ConnectionLost? <==> n % 2 == 0;
  }

  lemma ToggleSpeaks<R>(s: Server<R>, t: Server<R>, id: uint32, h: History)
    requires WF(s) && WF(t) && Speech(s, h) && id in s.byId
    requires forall id': uint32 :: Flag(t, id') == if id' == id then Some(!Flag(s, id).value) else Flag(s, id')
    ensures Speech(t, Record(h, Some(Toggle(id, Flag(s, id).value))))
  {
    var e := Toggle(id, Flag(s, id).value);
    var k := Record(h, Some(e));
    assert k == Heard(h, id, e);
    forall id': uint32
      ensures Consistent(id', EventsOf(k, id'), Flag(t, id'), id' in k.timedOut || id' in k.disconnected)
    {
      HeardEvents(h, id, e, id');
      assert Consistent(id', EventsOf(h, id'), Flag(s, id'), id' in h.timedOut || id' in h.disconnected);
      if id' == id {
        StoryGrows(id, EventsOf(h, id), Flag(s, id).value);
      }
    }
  }

  /** A client reached through an index loses or regains its connection. */
  lemma ToggleKeeps<R>(s: Server<R>, t: Server<R>, id: uint32, h: History)
    requires IdBook(s, h) && IndexBook(s, h) && WF(t) && id in s.byId
    requires s.idCounter == t.idCounter && s.pending == t.pending && s.byId == t.byId && s.byAddress == t.byAddress
    requires s.heap.Keys == t.heap.Keys && (forall r <- s.heap :: SameIdentity(s.heap[r], t.heap[r]))
    requires forall r <- s.heap ::
               t.heap[r].connected == if r == s.byId[id] then !s.heap[r].connected else s.heap[r].connected
    ensures IndexBook(t, Record(h, Some(Toggle(id, s.heap[s.byId[id]].connected))))
    ensures id !in h.timedOut && id !in h.disconnected
  {
    IndexedNotGone(s, h, id);
    FlagToggles(s, t, id);
    ToggleSpeaks(s, t, id, h);
  }

  lemma IndexedNotGone<R>(s: Server<R>, h: History, id: uint32)
    requires WF(s) && Partition(s, h) && id in s.byId
    ensures id !in h.timedOut && id !in h.disconnected && id !in PendingIds(s)
  {
    assert Places(s, h, id) == if 1 <= id <= s.idCounter then 1 else 0;
  }

  lemma FlagToggles<R>(s: Server<R>, t: Server<R>, id: uint32)
    requires WF(s) && WF(t) && KnownIds(s) && Agreement(s) && id in s.byId && s.byId == t.byId
    requires s.heap.Keys == t.heap.Keys
    requires forall r <- s.heap ::
               t.heap[r].connected == if r == s.byId[id] then !s.heap[r].connected else s.heap[r].connected
    ensures forall id': uint32 :: Flag(t, id') == if id' == id then Some(!Flag(s, id).value) else Flag(s, id')
  {
    assert forall id' <- s.byId | id' != id :: s.byId[id'] != s.byId[id];
  }

  // ---- API calls ----

  /** A connect, whatever periods the client is given. */
  lemma ConnectKeeps<R>(s: Server<R>, r: R, outgoing: Address, pingPeriod: int, timeoutPeriod: int, time: int,
          h: History)
    requires IdBook(s, h) && r !in s.heap && s.idCounter < 0xFFFF_FFFF
    ensures Keeps(s, h, Outcome(AddPending(s, r, outgoing, pingPeriod, timeoutPeriod, time), None), true)
  {
    var t := AddPending(s, r, outgoing, pingPeriod, timeoutPeriod, time);
    AddPendingWF(s, r, outgoing, pingPeriod, timeoutPeriod, time);
    ConnectIds(s, t, r, h);
    if IndexBook(s, h) {
      ConnectIndexes(s, t, r);
      LeavingSpeaks(s, t, h, h);
    }
  }

  lemma ConnectIds<R>(s: Server<R>, t: Server<R>, r: R, h: History)
    requires IdBook(s, h) && WF(t) && r !in s.heap && s.idCounter < 0xFFFF_FFFF
    requires t.idCounter == s.idCounter + 1 && t.pending == s.pending + [r] && t.byId == s.byId
    requires t.heap.Keys == s.heap.Keys + {r} && (forall q <- s.heap :: t.heap[q] == s.heap[q])
        && t.heap[r].id == t.idCounter
    ensures IdBook(t, h)
  {
    assert PendingIds(t) == PendingIds(s) + [t.idCounter];
    PendingKnown(s);
    NewestLast(h.outcomes, PendingIds(s), t.idCounter);
    forall id': uint32 ensures Places(t, h, id') == if 1 <= id' <= t.idCounter then 1 else 0 {
      ConnectPlaces(s, t, h, id');
    }
  }

  lemma ConnectPlaces<R>(s: Server<R>, t: Server<R>, h: History, id': uint32)
    requires IdBook(s, h) && WF(t) && t.idCounter == s.idCounter + 1 && t.byId == s.byId
    requires PendingIds(t) == PendingIds(s) + [t.idCounter]
    ensures Places(t, h, id') == if 1 <= id' <= t.idCounter then 1 else 0
  {
    assert Places(s, h, id') == if 1 <= id' <= s.idCounter then 1 else 0;
  }

  lemma ConnectIndexes<R>(s: Server<R>, t: Server<R>, r: R)
    requires WF(s) && WF(t) && Agreement(s) && r !in s.heap && t.byId == s.byId && t.byAddress == s.byAddress
    requires forall q <- s.heap :: q in t.heap && t.heap[q] == s.heap[q]
    ensures Agreement(t)
  {
  }

  lemma PendingKnown<R>(s: Server<R>)
    requires WF(s) && KnownIds(s)
    ensures forall id <- PendingIds(s) :: 1 <= id <= s.idCounter
  {
  }

  lemma NewestLast(outcomes: seq<uint32>, ids: seq<uint32>, id: uint32)
    requires Increasing(outcomes + ids) && (forall o <- outcomes :: o < id) && (forall i <- ids :: i < id)
    ensures Increasing(outcomes + (ids + [id]))
  {
    var all := outcomes + ids;
    Associative(outcomes, ids, [id]);
    assert forall i | 0 <= i < |all| :: all[i] in outcomes || all[i] in ids;
  }

  /** The caller disconnects: an id that was pending or connected is now disconnected. */
  ghost function Dropped<R>(s: Server<R>, h: History, id: uint32): History
    requires WF(s)
  {
    if id in s.byId || id in PendingIds(s) then h.(disconnected := h.disconnected + {id}) else h
  }

  lemma DisconnectKeeps<R>(s: Server<R>, id: uint32, h: History)
    requires IdBook(s, h)
    ensures var t := Disconnect(s, id);
            IdBook(t, Dropped(s, h, id)) && (IndexBook(s, h) ==> IndexBook(t, Dropped(s, h, id)))
  {
    if id in s.byId {
      DisconnectIndexed(s, id, h);
    } else {
      DisconnectPending(s, id, h);
    }
  }

  lemma DisconnectIndexed<R>(s: Server<R>, id: uint32, h: History)
    requires IdBook(s, h) && id in s.byId
    ensures var t := Disconnect(s, id);
            IdBook(t, Dropped(s, h, id)) && (IndexBook(s, h) ==> IndexBook(t, Dropped(s, h, id)))
  {
    var t := Disconnect(s, id);
    var k := Dropped(s, h, id);
    DisconnectWF(s, id);
    assert PendingIds(t) == PendingIds(s);
    forall id': uint32 ensures Places(t, k, id') == if 1 <= id' <= t.idCounter then 1 else 0 {
      assert Places(s, h, id') == if 1 <= id' <= s.idCounter then 1 else 0;
    }
    if IndexBook(s, h) {
      DisconnectAgrees(s, id);
      DisconnectSpeaks(s, id, h);
    }
  }

  lemma DisconnectSpeaks<R>(s: Server<R>, id: uint32, h: History)
    requires WF(s) && WF(Disconnect(s, id)) && Speech(s, h) && id in s.byId
    ensures Speech(Disconnect(s, id), Dropped(s, h, id))
  {
    var t := Disconnect(s, id);
    var k := Dropped(s, h, id);
    forall id': uint32
      ensures Consistent(id', EventsOf(k, id'), Flag(t, id'), id' in k.timedOut || id' in k.disconnected)
    {
      assert Consistent(id', EventsOf(h, id'), Flag(s, id'), id' in h.timedOut || id' in h.disconnected);
    }
  }

  /** Both entries of the client are gone, and only those. */
  lemma DisconnectAgrees<R>(s: Server<R>, id: uint32)
    requires WF(s) && WF(Disconnect(s, id)) && Agreement(s) && KnownIds(s) && id in s.byId
    ensures Agreement(Disconnect(s, id))
    ensures forall id' <- Disconnect(s, id).byId :: Disconnect(s, id).byId[id'] != s.byId[id]
    ensures forall a <- Disconnect(s, id).byAddress :: Disconnect(s, id).byAddress[a] != s.byId[id]
  {
    OthersKeepApart(s, id);
  }

  /** Another client of an index has neither the id nor the address of this one. */
  lemma OthersKeepApart<R>(s: Server<R>, id: uint32)
    requires WF(s) && Agreement(s) && KnownIds(s) && id in s.byId
    ensures var gone := s.heap[s.byId[id]].outgoing;
            && (forall id' <- s.byId | id' != id :: s.byId[id'] != s.byId[id] && s.heap[s.byId[id']].outgoing != gone)
            && (forall a <- s.byAddress | a != gone :: s.byAddress[a] != s.byId[id] && s.heap[s.byAddress[a]].id != id)
  {
  }

  function Filter(ids: seq<uint32>, id: uint32): seq<uint32> {
    if ids == [] then [] else if ids[0] == id then Filter(ids[1..], id) else [ids[0]] + Filter(ids[1..], id)
  }

  lemma {:induction false} FilterMembers(ids: seq<uint32>, id: uint32)
    ensures forall x :: x in Filter(ids, id) <==> x in ids && x != id
  {
    if ids != [] {
      FilterMembers(ids[1..], id);
      assert ids == [ids[0]] + ids[1..];
    }
  }

  lemma {:induction false} FilterIncreasing(outcomes: seq<uint32>, ids: seq<uint32>, id: uint32)
    requires Increasing(outcomes + ids)
    ensures Increasing(outcomes + Filter(ids, id))
    decreases |ids|
  {
    if ids != [] {
      Associative(outcomes, [ids[0]], ids[1..]);
      assert ids == [ids[0]] + ids[1..];
      if ids[0] == id {
        SkipOne(outcomes, ids[0], ids[1..]);
        FilterIncreasing(outcomes, ids[1..], id);
      } else {
        FilterIncreasing(outcomes + [ids[0]], ids[1..], id);
        Associative(outcomes, [ids[0]], Filter(ids[1..], id));
      }
    }
  }

  lemma SkipOne(outcomes: seq<uint32>, x: uint32, rest: seq<uint32>)
    requires Increasing(outcomes + [x] + rest)
    ensures Increasing(outcomes + rest)
  {
    var all := outcomes + [x] + rest;
    assert forall i | 0 <= i < |outcomes + rest| :: (outcomes + rest)[i] == all[if i < |outcomes| then i else i + 1];
  }

  ghost function Ids<R>(heap: map<R, ClientState>, refs: seq<R>): (ids: seq<uint32>)
    requires forall r <- refs :: r in heap
    ensures |ids| == |refs| && forall i | 0 <= i < |ids| :: ids[i] == heap[refs[i]].id
  {
    if refs == [] then [] else [heap[refs[0]].id] + Ids(heap, refs[1..])
  }

  lemma {:induction false} FilterMatches<R>(heap: map<R, ClientState>, refs: seq<R>, id: uint32)
    requires forall r <- refs :: r in heap
    ensures Ids(heap, WithoutId(heap, refs, id)) == Filter(Ids(heap, refs), id)
    ensures id !in Ids(heap, refs) ==> WithoutId(heap, refs, id) == refs
  {
    if refs != [] {
      FilterMatches(heap, refs[1..], id);
      assert Ids(heap, refs)[1..] == Ids(heap, refs[1..]);
      assert Ids(heap, refs)[0] == heap[refs[0]].id;
      if heap[refs[0]].id != id {
        var kept := WithoutId(heap, refs[1..], id);
        assert ([refs[0]] + kept)[1..] == kept;
        assert id !in Ids(heap, refs) ==> id !in Ids(heap, refs[1..]);
      }
    }
  }

  lemma PendingFiltered<R>(s: Server<R>, id: uint32, h: History)
    requires WF(s) && WF(Disconnect(s, id)) && id !in s.byId && Ordered(s, h)
    ensures var ids := PendingIds(Disconnect(s, id));
            && (forall x :: x in ids <==> x in PendingIds(s) && x != id)
            && Increasing(h.outcomes + ids)
  {
    var t := Disconnect(s, id);
    FilterMatches(s.heap, s.pending, id);
    assert PendingIds(s) == Ids(s.heap, s.pending);
    assert PendingIds(t) == Ids(s.heap, t.pending);
    FilterMembers(PendingIds(s), id);
    FilterIncreasing(h.outcomes, PendingIds(s), id);
  }

  lemma LeavingSpeaks<R>(s: Server<R>, t: Server<R>, h: History, k: History)
    requires WF(s) && WF(t) && Speech(s, h) && t.byId == s.byId
    requires forall r <- s.heap :: r in t.heap && t.heap[r] == s.heap[r]
    requires k.events == h.events && k.timedOut == h.timedOut && h.disconnected <= k.disconnected
    ensures Speech(t, k)
  {
    forall id': uint32
      ensures Consistent(id', EventsOf(k, id'), Flag(t, id'), id' in k.timedOut || id' in k.disconnected)
    {
      assert Flag(t, id') == Flag(s, id');
      assert Consistent(id', EventsOf(h, id'), Flag(s, id'), id' in h.timedOut || id' in h.disconnected);
    }
  }

  lemma DisconnectPending<R>(s: Server<R>, id: uint32, h: History)
    requires IdBook(s, h) && id !in s.byId
    ensures var t := Disconnect(s, id);
            IdBook(t, Dropped(s, h, id)) && (IndexBook(s, h) ==> IndexBook(t, Dropped(s, h, id)))
  {
    var t := Disconnect(s, id);
    var k := Dropped(s, h, id);
    DisconnectWF(s, id);
    PendingFiltered(s, id, h);
    forall id': uint32 ensures Places(t, k, id') == if 1 <= id' <= t.idCounter then 1 else 0 {
      assert Places(s, h, id') == if 1 <= id' <= s.idCounter then 1 else 0;
    }
    if IndexBook(s, h) {
      LeavingSpeaks(s, t, h, k);
    }
  }

  lemma SendReliableKeeps<R>(s: Server<R>, id: uint32, data: seq<byte>, h: History)
    requires IdBook(s, h) && |data| < 0x1_0000_0000 && TestHolds(s.bufferSize, RELIABLE_SIZE, |data|)
    ensures Keeps(s, h, Outcome(SendReliable(s, id, data).0, None), true)
  {
    SendWF(s, id, data);
    SendSame(s, id, data);
    SameBookKeeps(s, SendReliable(s, id, data).0, h);
  }

  lemma SendSame<R>(s: Server<R>, id: uint32, data: seq<byte>)
    requires WF(s) && |data| < 0x1_0000_0000
    ensures SameBook(s, SendReliable(s, id, data).0)
  {
    if id in s.byId {
      QueueSame(s, s.byId[id], s.heap[s.byId[id]].queue + [data]);
    }
  }

  lemma QueueSame<R>(s: Server<R>, r: R, queue: seq<seq<byte>>)
    requires r in s.heap
    ensures SameBook(s, SetClient(s, r, s.heap[r].(queue := queue)))
  {
  }

  lemma SendUnreliableOnlySends<R>(s: Server<R>, id: uint32, data: seq<byte>)
    requires WF(s) && |data| < 0x1_0000_0000
    ensures SendUnreliable(s, id, data).0 == s.(outbox := SendUnreliable(s, id, data).0.outbox)
    ensures WF(SendUnreliable(s, id, data).0)
  {
  }

  lemma SendUnreliableKeeps<R>(s: Server<R>, id: uint32, data: seq<byte>, h: History)
    requires IdBook(s, h) && |data| < 0x1_0000_0000
    ensures Keeps(s, h, Outcome(SendUnreliable(s, id, data).0, None), true)
  {
    SendUnreliableOnlySends(s, id, data);
    SameBookKeeps(s, SendUnreliable(s, id, data).0, h);
  }
}
