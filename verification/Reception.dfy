// Which datagrams one call takes in (src/UdcServer.cpp:159-161).

module Reception {
  import opened Bytes
  import opened Message
  import opened Client
  import opened ServerSpec

  // The size offered to the socket is a variable set once per call and overwritten by each received size, so it only
  // shrinks.

  /** One turn of the receive loop, on the front datagram received whole. */
  function Turn<R>(s: Server<R>, time: int): (o: Outcome<R>)
    requires WF(s) && s.inbox != []
    ensures WF(o.s) && o.s.inbox == s.inbox[1..]
  {
    var s1 := s.(inbox := s.inbox[1..]);
    HandleDatagramWF(s1, s.inbox[0], time);
    HandleDatagram(s1, s.inbox[0], time)
  }

  /** The receive loop is a turn, and the rest of the loop if the turn reported nothing. */
  lemma ReceiveStep<R>(s: Server<R>, offered: nat, time: int)
    requires WF(s) && Receive(s.inbox, offered).Received?
    ensures Turn(s, time).event.Some? ==> ReceiveMessages(s, offered, time) == Turn(s, time)
    ensures Turn(s, time).event.None? ==>
              ReceiveMessages(s, offered, time) == ReceiveMessages(Turn(s, time).s, |s.inbox[0].bytes|, time)
  {
  }

  /** The first `k` turns, and what the last of them reports. */
  function Turns<R>(s: Server<R>, k: nat, time: int): Outcome<R>
    requires WF(s) && k <= |s.inbox|
    decreases k
  {
    if k == 0 then Outcome(s, None)
    else if k == 1 then Turn(s, time)
    else Turns(Turn(s, time).s, k - 1, time)
  }

  /** None of the first `k` turns reports an event. */
  predicate QuietTurns<R>(s: Server<R>, k: nat, time: int)
    requires WF(s) && k <= |s.inbox|
    decreases k
  {
    k == 0 || (Turn(s, time).event.None? && QuietTurns(Turn(s, time).s, k - 1, time))
  }

  /** How many datagrams the call receives whole. */
  function Taken<R>(s: Server<R>, offered: nat, time: int): (n: nat)
    requires WF(s)
    ensures n <= |s.inbox|
    decreases |s.inbox|
  {
    if !Receive(s.inbox, offered).Received? then 0
    else 1 + if Turn(s, time).event.Some? then 0 else Taken(Turn(s, time).s, |s.inbox[0].bytes|, time)
  }

  /** The first k + 1 datagrams are nonempty, the first fits `offered`, and no one is longer than the one before it. */
  predicate Descending(ds: seq<Datagram>, offered: nat, k: nat) {
    && k < |ds| && |ds[0].bytes| <= offered
    && (forall i | 0 <= i <= k :: |ds[i].bytes| > 0)
    && (forall i | 0 <= i < k :: |ds[i + 1].bytes| <= |ds[i].bytes|)
  }

  lemma DescendingStep(ds: seq<Datagram>, offered: nat, k: nat)
    requires ds != [] && k > 0
    ensures Descending(ds, offered, k) <==> 0 < |ds[0].bytes| <= offered && Descending(ds[1..], |ds[0].bytes|, k - 1)
  {
    if 0 < |ds[0].bytes| <= offered && Descending(ds[1..], |ds[0].bytes|, k - 1) {
      forall i | 0 <= i <= k ensures |ds[i].bytes| > 0 {
        assert i > 0 ==> ds[1..][i - 1] == ds[i];
      }
      forall i | 0 <= i < k ensures |ds[i + 1].bytes| <= |ds[i].bytes| {
        assert i > 0 ==> ds[1..][i - 1] == ds[i];
        assert ds[1..][i] == ds[i + 1];
      }
    }
    if Descending(ds, offered, k) {
      assert ds[1..][0] == ds[0 + 1];
    }
  }

  /** The call takes in datagram `k` if and only if no earlier turn reports an event, all datagrams up to it are
      nonempty, the first fits what is offered, and their sizes do not increase. */
  lemma {:induction false} TakenExactly<R>(s: Server<R>, offered: nat, time: int, k: nat)
    requires WF(s)
    ensures k < Taken(s, offered, time) <==> Descending(s.inbox, offered, k) && QuietTurns(s, k, time)
    decreases |s.inbox|
  {
    if s.inbox != [] && k > 0 {
      DescendingStep(s.inbox, offered, k);
      if Receive(s.inbox, offered).Received? {
        TakenExactly(Turn(s, time).s, |s.inbox[0].bytes|, time, k - 1);
      }
    }
  }

  /** What is offered after the first `n` datagrams. */
  function OfferedAfter(ds: seq<Datagram>, offered: nat, n: nat): nat
    requires n <= |ds|
  {
    if n == 0 then offered else |ds[n - 1].bytes|
  }

  lemma OfferedShifts(ds: seq<Datagram>, offered: nat, n: nat)
    requires n < |ds|
    ensures OfferedAfter(ds, offered, n + 1) == OfferedAfter(ds[1..], |ds[0].bytes|, n)
  {
    assert n > 0 ==> ds[1..][n - 1] == ds[n];
  }

  /** The call ends as `r` when the turns end as `o`, with `offered` bytes offered next: unless an event was reported,
      the next datagram, if any, is thrown away, and at most the bytes that landed in the buffer remain of it. */
  ghost predicate EndsAs<R>(r: Outcome<R>, o: Outcome<R>, offered: nat) {
    r == if o.event.Some? then o
         else match Receive(o.s.inbox, offered)
              case Failed(landed) => Outcome(o.s.(inbox := o.s.inbox[1..], prefix := Land(o.s.prefix, landed)), None)
              case _ => o
  }

  /** The turns from the second datagram on are turns from the first one on. */
  lemma TurnsShift<R>(s: Server<R>, n: nat, time: int)
    requires WF(s) && n < |s.inbox| && Turn(s, time).event.None?
    ensures Turns(s, n + 1, time) == Turns(Turn(s, time).s, n, time)
  {
  }

  lemma TakenShift<R>(s: Server<R>, offered: nat, time: int)
    requires WF(s) && Receive(s.inbox, offered).Received? && Turn(s, time).event.None?
    ensures Taken(s, offered, time) == Taken(Turn(s, time).s, |s.inbox[0].bytes|, time) + 1
  {
  }

  /** The call is the turns of the datagrams it takes in, and then at most one more datagram thrown away. */
  lemma {:induction false} ReceiveIsTurns<R>(s: Server<R>, offered: nat, time: int)
    requires WF(s)
    ensures var n := Taken(s, offered, time);
            var o := Turns(s, n, time);
            && o.s.inbox == s.inbox[n..] && (n > 0 ==> QuietTurns(s, n - 1, time))
            && EndsAs(ReceiveMessages(s, offered, time), o, OfferedAfter(s.inbox, offered, n))
    decreases |s.inbox|
  {
    if Receive(s.inbox, offered).Received? {
      ReceiveStep(s, offered, time);
      if Turn(s, time).event.None? {
        var t := Turn(s, time).s;
        var n := Taken(t, |s.inbox[0].bytes|, time);
        ReceiveIsTurns(t, |s.inbox[0].bytes|, time);
        TakenShift(s, offered, time);
        TurnsShift(s, n, time);
        assert s.inbox[1..][n..] == s.inbox[n + 1..];
        OfferedShifts(s.inbox, offered, n);
      }
    }
  }

  /** So a datagram longer than the one before it is lost, whatever the buffer size, unless that one reported an event:
      nothing but the buffer remembers it. */
  lemma LongerBehindShorterIsLost<R>(s: Server<R>, offered: nat, time: int, k: nat)
    requires WF(s) && k + 1 < |s.inbox| && k < Taken(s, offered, time) && Turns(s, k + 1, time).event.None?
    requires |s.inbox[k].bytes| < |s.inbox[k + 1].bytes|
    ensures var o := ReceiveMessages(s, offered, time);
            var t := Turns(s, k + 1, time).s;
            o.event.None? && o.s == t.(inbox := s.inbox[k + 2..], prefix := o.s.prefix)
  {
    var n := Taken(s, offered, time);
    TakenExactly(s, offered, time, k + 1);
    assert !Descending(s.inbox, offered, k + 1);
    ReceiveIsTurns(s, offered, time);
    assert n == k + 1;
    assert s.inbox[n..][1..] == s.inbox[k + 2..];
  }

  /** For example a first reliable message behind a ping: it fits the buffer and the receiver waits for it, yet the call
      answers the ping and throws the message away. Received on its own, it is handed over. */
  lemma MessageBehindPingIsLost<R>(s: Server<R>, from: Address, stamp: uint32, sender: Address, sent: uint32,
          data: seq<byte>, time: int)
    requires WF(s) && data != [] && RELIABLE_SIZE + |data| <= s.bufferSize && EntryOf(s.reliableStates, sender) == None
    requires s.prefix == s.signature
    requires s.inbox == [Datagram(from, Wire(s.signature, Packet.Ping(stamp))),
                         Datagram(sender, Wire(s.signature, Reliable(0, sent, data)))]
    ensures var o := ReceiveMessages(s, s.bufferSize, time);
            && o.event == None && o.s.inbox == [] && o.s.reliableStates == s.reliableStates
            && o.s.outbox == s.outbox + [Datagram(from, Wire(s.signature, Packet.Pong(stamp)))]
    ensures ReceiveMessages(s.(inbox := s.inbox[1..]), s.bufferSize, time).event
            == Some(ReceiveMessage(sender, RELIABLE_SIZE, data))
  {
    PingTurn(s, time, from, stamp);
    assert |s.inbox[0].bytes| == PINGPONG_SIZE && |s.inbox[1].bytes| == RELIABLE_SIZE + |data|;
    TakenExactly(s, s.bufferSize, time, 0);
    assert Turns(s, 1, time) == Turn(s, time);
    LongerBehindShorterIsLost(s, s.bufferSize, time, 0);
    MessageTurn(s.(inbox := s.inbox[1..]), time, sender, sent, data);
  }

  lemma PingTurn<R>(s: Server<R>, time: int, from: Address, stamp: uint32)
    requires WF(s) && s.inbox != [] && s.inbox[0] == Datagram(from, Wire(s.signature, Packet.Ping(stamp)))
    ensures var o := Turn(s, time);
            && o.event == None && o.s.reliableStates == s.reliableStates
            && o.s.outbox == s.outbox + [Datagram(from, Wire(s.signature, Packet.Pong(stamp)))]
  {
    ParseWire(s.signature, Packet.Ping(stamp));
    HandleDatagramIs(s.(inbox := s.inbox[1..]), s.inbox[0], time);
  }

  lemma MessageTurn<R>(s: Server<R>, time: int, from: Address, sent: uint32, data: seq<byte>)
    requires WF(s) && s.inbox != [] && s.inbox[0] == Datagram(from, Wire(s.signature, Reliable(0, sent, data)))
    requires EntryOf(s.reliableStates, from) == None && RELIABLE_SIZE + |data| <= s.bufferSize
    ensures ReceiveMessages(s, s.bufferSize, time).event == Some(ReceiveMessage(from, RELIABLE_SIZE, data))
  {
    ParseWire(s.signature, Reliable(0, sent, data));
    HandleDatagramIs(s.(inbox := s.inbox[1..]), s.inbox[0], time);
    assert |s.inbox[0].bytes| == RELIABLE_SIZE + |data|;
  }
}
