// The receiver's entry for one address over whole runs of a server: it is a fold over what arrived from the address,
// and, once the address is known, the parity of the messages delivered since the last RESET
// (src/UdcServer.cpp:500-558).

module Entries {
  import opened Bytes
  import opened Message
  import opened Client
  import opened ServerSpec
  import opened Protocol
  import opened Ledger
  import opened Runs
  import opened Reception
  import opened Sessions
  import opened LinkReceiver

  // ---- folds over arrivals ----

  lemma {:induction false} EntryAppend(entry: Option<Bit>, x: seq<Option<Bit>>, y: seq<Option<Bit>>)
    ensures EntryAfter(entry, x + y) == EntryAfter(EntryAfter(entry, x), y)
    decreases |y|
  {
    if y == [] {
      assert x + y == x;
    } else {
      assert (x + y)[..|x + y| - 1] == x + y[..|y| - 1];
      EntryAppend(entry, x, y[..|y| - 1]);
    }
  }

  /** How many of the arrivals are delivered. */
  function Deliveries(entry: Option<Bit>, arrivals: seq<Option<Bit>>): nat
    decreases |arrivals|
  {
    if arrivals == [] then 0
    else
      var last := |arrivals| - 1;
      var e := EntryAfter(entry, arrivals[..last]);
      Deliveries(entry, arrivals[..last])
      + if arrivals[last].Some? && ReceiveReliable(e, arrivals[last].value).1 then 1 else 0
  }

  lemma {:induction false} DeliveriesAppend(entry: Option<Bit>, x: seq<Option<Bit>>, y: seq<Option<Bit>>)
    ensures Deliveries(entry, x + y) == Deliveries(entry, x) + Deliveries(EntryAfter(entry, x), y)
    decreases |y|
  {
    if y == [] {
      assert x + y == x;
    } else {
      assert (x + y)[..|x + y| - 1] == x + y[..|y| - 1];
      DeliveriesAppend(entry, x, y[..|y| - 1]);
      EntryAppend(entry, x, y[..|y| - 1]);
    }
  }

  lemma {:induction false} DeliveriesWithoutReset(entry: Option<Bit>, arrivals: seq<Option<Bit>>)
    requires !SawReset(arrivals)
    ensures DeliveriesSinceReset(entry, arrivals) == Deliveries(entry, arrivals)
  {
    if arrivals != [] {
      DeliveriesWithoutReset(entry, arrivals[..|arrivals| - 1]);
    }
  }

  // ---- what arrives ----

  function Arrival(p: Packet): seq<Option<Bit>> {
    match p
    case Reliable(bit, _, _) => [Some(bit)]
    case ReliableReset(_) => [None]
    case _ => []
  }

  /** The state of the books on `peer`: its entry, and what was handed over, after `arrivals` from it. */
  ghost predicate Folds<R>(s: Server<R>, o: Outcome<R>, peer: Address, arrivals: seq<Option<Bit>>) {
    && EntryOf(o.s.reliableStates, peer) == EntryAfter(EntryOf(s.reliableStates, peer), arrivals)
    && |Handed(o.event, peer)| == Deliveries(EntryOf(s.reliableStates, peer), arrivals)
  }

  lemma FoldNothing<R>(s: Server<R>, o: Outcome<R>, peer: Address)
    requires o.s.reliableStates == s.reliableStates && Handed(o.event, peer) == []
    ensures Folds(s, o, peer, [])
  {
  }

  lemma FoldTwice<R>(s: Server<R>, o: Outcome<R>, p: Outcome<R>, peer: Address, x: seq<Option<Bit>>,
          y: seq<Option<Bit>>)
    requires Folds(s, o, peer, x) && o.event.None? && Folds(o.s, p, peer, y)
    ensures Folds(s, p, peer, x + y)
  {
    EntryAppend(EntryOf(s.reliableStates, peer), x, y);
    DeliveriesAppend(EntryOf(s.reliableStates, peer), x, y);
  }

  lemma PacketFolds<R>(s: Server<R>, from: Address, p: Packet, time: int, peer: Address)
    requires WF(s)
    ensures Folds(s, HandlePacket(s, from, p, time), peer, if from == peer then Arrival(p) else [])
  {
    match p
    case Reliable(bit, stamp, data) => ReliableFolds(s, from, bit, stamp, data, time, peer);
    case ReliableReset(stamp) => ResetFolds(s, from, stamp, time, peer);
    case _ => OtherFolds(s, from, p, time, peer);
  }

  /** Packets that reach no entry. */
  lemma OtherFolds<R>(s: Server<R>, from: Address, p: Packet, time: int, peer: Address)
    requires WF(s) && !p.Reliable? && !p.ReliableReset?
    ensures Folds(s, HandlePacket(s, from, p, time), peer, [])
  {
    FoldNothing(s, HandlePacket(s, from, p, time), peer);
  }

  lemma ResetFolds<R>(s: Server<R>, from: Address, stamp: uint32, time: int, peer: Address)
    requires WF(s)
    ensures Folds(s, HandlePacket(s, from, ReliableReset(stamp), time), peer, if from == peer then [None] else [])
  {
    var e := EntryOf(s.reliableStates, from);
    var reset: seq<Option<Bit>> := [None];
    assert reset[..0] == [] && EntryAfter(e, []) == e && Deliveries(e, []) == 0;
    assert EntryAfter(e, reset) == ReceiveReset(e);
  }

  lemma ReliableFolds<R>(s: Server<R>, from: Address, bit: Bit, stamp: uint32, data: seq<byte>, time: int,
          peer: Address)
    requires WF(s)
    ensures Folds(s, HandlePacket(s, from, Reliable(bit, stamp, data), time), peer,
                  if from == peer then [Some(bit)] else [])
  {
    var e := EntryOf(s.reliableStates, from);
    assert [Some(bit)][..0] == [] && EntryAfter(e, []) == e && Deliveries(e, []) == 0;
    assert EntryAfter(e, [Some(bit)]) == Some(Flip(bit));
  }

  /** What the front datagram is to `peer`'s entry. */
  function TurnArrivals<R>(s: Server<R>, peer: Address): seq<Option<Bit>>
    requires s.inbox != []
  {
    var p := Parse(s.signature, s.inbox[0].bytes);
    if p.Some? && s.inbox[0].address == peer then Arrival(p.value) else []
  }

  lemma TurnFolds<R>(s: Server<R>, time: int, peer: Address)
    requires WF(s) && s.inbox != []
    ensures Folds(s, Turn(s, time), peer, TurnArrivals(s, peer))
  {
    var s1 := s.(inbox := s.inbox[1..]);
    var d := s.inbox[0];
    HandleDatagramIs(s1, d, time);
    match Parse(s.signature, d.bytes)
    case Some(p) => PacketFolds(s1.(prefix := s.signature), d.address, p, time, peer);
    case None => FoldNothing(s, Turn(s, time), peer);
  }

  function ReceiveArrivals<R>(s: Server<R>, offered: nat, time: int, peer: Address): seq<Option<Bit>>
    requires WF(s)
    decreases |s.inbox|
  {
    if !Receive(s.inbox, offered).Received? then []
    else
      TurnArrivals(s, peer)
      + if Turn(s, time).event.Some? then [] else ReceiveArrivals(Turn(s, time).s, |s.inbox[0].bytes|, time, peer)
  }

  lemma {:induction false} ReceiveFolds<R>(s: Server<R>, offered: nat, time: int, peer: Address)
    requires WF(s)
    ensures Folds(s, ReceiveMessages(s, offered, time), peer, ReceiveArrivals(s, offered, time, peer))
    decreases |s.inbox|
  {
    if !Receive(s.inbox, offered).Received? {
      FoldNothing(s, ReceiveMessages(s, offered, time), peer);
    } else {
      var o := Turn(s, time);
      TurnFolds(s, time, peer);
      if o.event.Some? {
        assert TurnArrivals(s, peer) + [] == TurnArrivals(s, peer);
      } else {
        ReceiveFolds(o.s, |s.inbox[0].bytes|, time, peer);
        FoldTwice(s, o, ReceiveMessages(o.s, |s.inbox[0].bytes|, time), peer,
                  TurnArrivals(s, peer), ReceiveArrivals(o.s, |s.inbox[0].bytes|, time, peer));
      }
    }
  }

  ghost function PollArrivals<R>(s: Server<R>, order: seq<uint32>, time: int, peer: Address): seq<Option<Bit>>
    requires WF(s) && forall id <- order :: id in s.byId
  {
    UpdatePendingClientsWF(s, time);
    var o1 := UpdatePendingClients(s, time);
    if o1.event.Some? then []
    else
      UpdateClientsWF(o1.s, order, time);
      var o2 := UpdateClients(o1.s, order, time);
      if o2.event.Some? then [] else ReceiveArrivals(o2.s, o2.s.bufferSize, time, peer)
  }

  lemma {:induction false} LoopKeepsEntries<R>(s: Server<R>, order: seq<uint32>, time: int)
    requires WF(s) && forall id <- order :: id in s.byId
    ensures UpdateClients(s, order, time).s.reliableStates == s.reliableStates
    decreases |order|
  {
    if order != [] {
      UpdateClientWF(s, order[0], time);
      UpdateClientIsPoll(s, order[0], time);
      var o := UpdateClient(s, order[0], time);
      if o.event.None? {
        LoopKeepsEntries(o.s, order[1..], time);
      }
    }
  }

  lemma PollFolds<R>(s: Server<R>, order: seq<uint32>, time: int, peer: Address)
    requires WF(s) && forall id <- order :: id in s.byId
    ensures Folds(s, ProcessEvents(s, order, time), peer, PollArrivals(s, order, time, peer))
  {
    UpdatePendingClientsWF(s, time);
    var o1 := UpdatePendingClients(s, time);
    assert o1.s.reliableStates == s.reliableStates && Handed(o1.event, peer) == [];
    if o1.event.Some? {
      FoldNothing(s, o1, peer);
    } else {
      UpdateClientsWF(o1.s, order, time);
      LoopKeepsEntries(o1.s, order, time);
      LoopHandsNothing(o1.s, order, time, peer);
      var o2 := UpdateClients(o1.s, order, time);
      if o2.event.Some? {
        FoldNothing(s, o2, peer);
      } else {
        ReceiveFolds(o2.s, o2.s.bufferSize, time, peer);
      }
    }
  }

  // ---- runs ----

  ghost function CallArrivals<R>(s: Server<R>, call: Call<R>, peer: Address): seq<Option<Bit>>
    requires WF(s) && Legal(s, call)
  {
    if call.Process? then PollArrivals(s, call.order, call.time, peer) else []
  }

  lemma CallFolds<R>(s: Server<R>, call: Call<R>, peer: Address)
    requires WF(s) && Legal(s, call)
    ensures Folds(s, After(s, call), peer, CallArrivals(s, call, peer))
  {
    if call.Process? {
      PollFolds(s, call.order, call.time, peer);
    } else {
      FoldNothing(s, After(s, call), peer);
    }
  }

  /** Every reliable message and RESET from `peer` that the run dispatches, in order. */
  ghost function RunArrivals<R>(s: Server<R>, calls: seq<Call<R>>, peer: Address): seq<Option<Bit>>
    requires WF(s) && Lawful(s, calls)
    decreases |calls|
  {
    if calls == [] then []
    else
      CallWF(s, calls[0]);
      CallArrivals(s, calls[0], peer) + RunArrivals(After(s, calls[0]).s, calls[1..], peer)
  }

  /** The reliable messages from `peer` that the run hands to its caller, in order. */
  ghost function RunHanded<R>(s: Server<R>, calls: seq<Call<R>>, peer: Address): seq<Msg>
    requires WF(s) && Lawful(s, calls)
    decreases |calls|
  {
    if calls == [] then []
    else
      CallWF(s, calls[0]);
      Handed(After(s, calls[0]).event, peer) + RunHanded(After(s, calls[0]).s, calls[1..], peer)
  }

  lemma {:induction false} RunFolds<R>(s: Server<R>, h: History, calls: seq<Call<R>>, peer: Address)
    requires WF(s) && Lawful(s, calls)
    ensures var arrivals := RunArrivals(s, calls, peer);
            && EntryOf(Final(s, h, calls).0.reliableStates, peer)
                == EntryAfter(EntryOf(s.reliableStates, peer), arrivals)
            && |RunHanded(s, calls, peer)| == Deliveries(EntryOf(s.reliableStates, peer), arrivals)
    decreases |calls|
  {
    if calls != [] {
      CallWF(s, calls[0]);
      var o := After(s, calls[0]);
      CallFolds(s, calls[0], peer);
      RunFolds(o.s, HistoryAfter(s, h, calls[0]), calls[1..], peer);
      EntryAppend(EntryOf(s.reliableStates, peer), CallArrivals(s, calls[0], peer), RunArrivals(o.s, calls[1..], peer));
      DeliveriesAppend(EntryOf(s.reliableStates, peer), CallArrivals(s, calls[0], peer),
                       RunArrivals(o.s, calls[1..], peer));
    }
  }

  /** `entry` is the parity of the deliveries since the last RESET among `arrivals`, counted from 0, or from `first`
      when no RESET came; in that case it is also the parity of `handed`. */
  predicate EntryIs(first: Bit, entry: Option<Bit>, arrivals: seq<Option<Bit>>, handed: nat) {
    && entry.Some?
    && entry.value == Parity((if SawReset(arrivals) then 0 else first) + DeliveriesSinceReset(Some(first), arrivals))
    && (!SawReset(arrivals) ==> entry.value == Parity(first + handed))
  }

  lemma ParityOfArrivals(first: Bit, arrivals: seq<Option<Bit>>)
    ensures EntryIs(first, EntryAfter(Some(first), arrivals), arrivals, Deliveries(Some(first), arrivals))
  {
    EntryIsParity(first, arrivals);
    if !SawReset(arrivals) {
      DeliveriesWithoutReset(Some(first), arrivals);
    }
  }

  /** Over every run of a server that knows the address, the entry is that parity of what arrived and of the messages
      handed to the caller. */
  lemma EntryParityAlways<R>(s: Server<R>, h: History, calls: seq<Call<R>>, peer: Address, first: Bit)
    requires WF(s) && Lawful(s, calls) && EntryOf(s.reliableStates, peer) == Some(first)
    ensures EntryIs(first, EntryOf(Final(s, h, calls).0.reliableStates, peer),
                    RunArrivals(s, calls, peer), |RunHanded(s, calls, peer)|)
  {
    RunFolds(s, h, calls, peer);
    ParityOfArrivals(first, RunArrivals(s, calls, peer));
  }

  /** Over every run of a server: the entry is the other bit of the last reliable message from the address; after a
      RESET it is 0, or still absent if no message ever came. */
  lemma EntryFromLastAlways<R>(s: Server<R>, h: History, calls: seq<Call<R>>, peer: Address)
    requires WF(s) && Lawful(s, calls)
    ensures EntryOf(Final(s, h, calls).0.reliableStates, peer)
            == EntryFromLast(EntryOf(s.reliableStates, peer), RunArrivals(s, calls, peer))
  {
    RunFolds(s, h, calls, peer);
    EntryIsFromLast(EntryOf(s.reliableStates, peer), RunArrivals(s, calls, peer));
  }
}
