// One endpoint (src/UdcClient.cpp): its fields as a value, the state functions, and the class that
// updates the fields in place.

module Client {
  import opened Bytes
  import opened Message

  datatype Address =
    | IPv4(octets: seq<byte>, port: nat)
    | IPv6(segments: seq<nat>, port: nat)

  type ReliableState = x: int | -1 <= x <= 1

  datatype ClientState = ClientState(
    id: uint32,
    outgoing: Address,
    pingPeriod: int,
    connectionTimeoutPeriod: int,
    connectionLostPeriod: int,
    connectionAttemptPeriod: int,
    reliableTimeoutPeriod: int,
    reliableState: ReliableState,
    queue: seq<seq<byte>>,
    connected: bool,
    ping: int,
    pingLastSetTime: int,
    lastReceivedTime: int,
    reliableSentTime: int,
    firstConnectAttemptTime: int,
    prevConnectAttemptTime: int)

  function NewClient(id: uint32, outgoing: Address, pingPeriod: int, timeoutPeriod: int): ClientState {
    ClientState(id, outgoing, pingPeriod, timeoutPeriod, timeoutPeriod, pingPeriod, timeoutPeriod,
                0, [], false, 0, 0, 0, 0, 0, 0)
  }

  // ---- const members ----

  predicate NeedsConnectionTimeoutEvent(c: ClientState, time: int) {
    time - c.firstConnectAttemptTime >= c.connectionTimeoutPeriod
  }

  predicate NeedsConnectionAttempt(c: ClientState, time: int) {
    time - c.prevConnectAttemptTime >= c.connectionAttemptPeriod
  }

  predicate NeedsReliableReset(c: ClientState, time: int) {
    c.reliableSentTime != 0 && time - c.reliableSentTime >= c.reliableTimeoutPeriod
  }

  predicate NeedsPing(c: ClientState, time: int) {
    time - c.pingLastSetTime >= c.pingPeriod
  }

  predicate NeedsConnectionLostEvent(c: ClientState, time: int) {
    c.connected && time - c.lastReceivedTime >= c.connectionLostPeriod
  }

  // ---- state functions ----

  function StartConnecting(c: ClientState, time: int): ClientState {
    c.(firstConnectAttemptTime := time, prevConnectAttemptTime := 0)
  }

  function RetryConnecting(c: ClientState, time: int): ClientState {
    c.(prevConnectAttemptTime := time)
  }

  function ReceiveConnectionHandshake(c: ClientState, time: int): ClientState {
    c.(connected := true, lastReceivedTime := time)
  }

  function SetConnectionLost(c: ClientState): ClientState {
    c.(connected := false)
  }

  /** A pong, or a reliable handshake standing in for one. */
  function ReceivePong(c: ClientState, sent: int, received: int): ClientState {
    c.(ping := received - sent, pingLastSetTime := received, lastReceivedTime := received, connected := true)
  }

  function ResetSendReliable(c: ClientState): ClientState {
    c.(reliableSentTime := 0)
  }

  function SetSendReliable(c: ClientState, time: int): ClientState {
    if c.reliableSentTime == 0 then c.(reliableSentTime := time) else c
  }

  /** The reliable part of one pass over a client (src/UdcServer.cpp:346-384): the new state and the packet sent. */
  function PollReliable(c: ClientState, time: int): (ClientState, Option<Packet>) {
    if c.queue == [] then (c, None)
    else if c.reliableState == -1 then (c, Some(ReliableReset(Low32(time))))
    else if NeedsReliableReset(c, time) then (ResetSendReliable(c.(reliableState := -1)), None)
    else (SetSendReliable(c, time), Some(Reliable(if c.reliableState == 0 then 0 else 1, Low32(time), c.queue[0])))
  }

  /** One pass over a client (src/UdcServer.cpp:342-407): the new state, the packets sent in order, and whether
      the connection is reported lost. */
  function Poll(c: ClientState, time: int): (ClientState, seq<Packet>, bool) {
    var (d, out) := PollReliable(c, time);
    var packets := if out.Some? then [out.value] else [];
    var pings := if NeedsPing(d, time) then [Packet.Ping(Low32(time))] else [];
    if NeedsConnectionLostEvent(d, time) then (SetConnectionLost(d), packets + pings, true)
    else (d, packets + pings, false)
  }

  /** A pass touches the reliable state and timer and the connected flag, nothing else. */
  lemma PollKeeps(c: ClientState, time: int)
    ensures var (d, _, lost) := Poll(c, time);
            && SameIdentity(c, d)
            && d == c.(reliableState := d.reliableState, reliableSentTime := d.reliableSentTime,
                connected := d.connected)
            && lost == NeedsConnectionLostEvent(c, time) && d.connected == (c.connected && !lost)
  {
  }

  /** An acknowledgement of `state` (src/UdcServer.cpp:579-595): pop and flip on a match. */
  function AcceptHandshake(c: ClientState, state: ReliableState): ClientState {
    if state != c.reliableState then c
    else
      var c1 := if state != -1 && c.queue != [] then c.(queue := c.queue[1..]) else c;
      ResetSendReliable(c1.(reliableState := if state == 0 then 1 else 0))
  }

  /** All of src/UdcServer.cpp:560-607 that touches the client: a stamp from the future is refused. */
  function ReceiveReliableHandshake(c: ClientState, state: ReliableState, stamp: uint32, time: int): ClientState {
    if time < stamp then c else ReceivePong(AcceptHandshake(c, state), stamp, time)
  }

  /** What no operation changes. */
  predicate SameIdentity(c: ClientState, d: ClientState) {
    && c.id == d.id && c.outgoing == d.outgoing
    && c.pingPeriod == d.pingPeriod
    && c.connectionTimeoutPeriod == d.connectionTimeoutPeriod
    && c.connectionLostPeriod == d.connectionLostPeriod
    && c.connectionAttemptPeriod == d.connectionAttemptPeriod
    && c.reliableTimeoutPeriod == d.reliableTimeoutPeriod
  }

  // ---- the object ----

  class UdcClient {
    const id: uint32
    const outgoingAddress: Address
    const pingPeriod: int
    const connectionTimeoutPeriod: int
    const connectionLostPeriod: int
    const connectionAttemptPeriod: int
    const reliableTimeoutPeriod: int
    var reliableState: ReliableState
    var reliableMessages: seq<seq<byte>>
    var isConnected: bool
    var ping: int
    var pingLastSetTime: int
    var lastReceivedTime: int
    var reliableSentTime: int
    var firstConnectAttemptTime: int
    var prevConnectAttemptTime: int

    function View(): ClientState
      reads this
    {
      ClientState(id, outgoingAddress, pingPeriod, connectionTimeoutPeriod, connectionLostPeriod,
                  connectionAttemptPeriod, reliableTimeoutPeriod, reliableState, reliableMessages, isConnected,
                  ping, pingLastSetTime, lastReceivedTime, reliableSentTime,
                  firstConnectAttemptTime, prevConnectAttemptTime)
    }

    constructor (endPointId: uint32, outgoing: Address, pingPeriod: int, timeoutPeriod: int)
      ensures View() == NewClient(endPointId, outgoing, pingPeriod, timeoutPeriod)
    {
      id := endPointId;
      reliableState := 0;
      reliableMessages := [];
      isConnected := false;
      outgoingAddress := outgoing;
      this.pingPeriod := pingPeriod;
      connectionTimeoutPeriod := timeoutPeriod;
      connectionLostPeriod := timeoutPeriod;
      connectionAttemptPeriod := pingPeriod;
      reliableTimeoutPeriod := timeoutPeriod;
      ping, pingLastSetTime, lastReceivedTime, reliableSentTime := 0, 0, 0, 0;
      firstConnectAttemptTime, prevConnectAttemptTime := 0, 0;
    }

    method SetReliableState(state: ReliableState)
      modifies this`reliableState
      ensures View() == old(View()).(reliableState := state)
    {
      reliableState := state;
    }

    method PushReliable(message: seq<byte>)
      modifies this`reliableMessages
      ensures View() == old(View()).(queue := old(View()).queue + [message])
    {
      reliableMessages := reliableMessages + [message];
    }

    method PopReliable()
      requires reliableMessages != []
      modifies this`reliableMessages
      ensures View() == old(View()).(queue := old(View()).queue[1..])
    {
      reliableMessages := reliableMessages[1..];
    }

    method StartConnectingAt(time: int)
      modifies this`firstConnectAttemptTime, this`prevConnectAttemptTime
      ensures View() == StartConnecting(old(View()), time)
      ensures firstConnectAttemptTime == time && prevConnectAttemptTime == 0
    {
      firstConnectAttemptTime := time;
      prevConnectAttemptTime := 0;
    }

    method RetryConnectingAt(time: int)
      modifies this`prevConnectAttemptTime
      ensures View() == RetryConnecting(old(View()), time) && prevConnectAttemptTime == time
    {
      prevConnectAttemptTime := time;
    }

    method SetLost()
      modifies this`isConnected
      ensures View() == SetConnectionLost(old(View())) && !isConnected
    {
      isConnected := false;
    }

    /** Returns true exactly when a lost connection has been regained. */
    method ReceivePongAt(pingSentTime: int, pongReceivedTime: int) returns (regained: bool)
      modifies this`ping, this`pingLastSetTime, this`lastReceivedTime, this`isConnected
      ensures View() == ReceivePong(old(View()), pingSentTime, pongReceivedTime)
      ensures pingLastSetTime == lastReceivedTime == pongReceivedTime && ping == pongReceivedTime - pingSentTime
      ensures isConnected && regained == !old(isConnected)
    {
      ping := pongReceivedTime - pingSentTime;
      pingLastSetTime := pongReceivedTime;
      lastReceivedTime := pongReceivedTime;
      if !isConnected {
        isConnected := true;
        return true;
      }
      return false;
    }

    method ClearSendReliable()
      modifies this`reliableSentTime
      ensures View() == ResetSendReliable(old(View())) && reliableSentTime == 0
    {
      reliableSentTime := 0;
    }

    method MarkSendReliable(time: int)
      modifies this`reliableSentTime
      ensures View() == SetSendReliable(old(View()), time)
      ensures reliableSentTime == if old(reliableSentTime) == 0 then time else old(reliableSentTime)
    {
      if reliableSentTime == 0 {
        reliableSentTime := time;
      }
    }

    method ReceiveConnectionHandshakeAt(receivedTime: int)
      modifies this`isConnected, this`lastReceivedTime
      ensures View() == ReceiveConnectionHandshake(old(View()), receivedTime)
      ensures isConnected && lastReceivedTime == receivedTime
    {
      if !isConnected {
        isConnected := true;
      }
      lastReceivedTime := receivedTime;
    }
  }
}
