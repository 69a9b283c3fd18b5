# udp-connect in Dafny

udp-connect keeps *connections* on top of UDP: an endpoint asks another one to connect, both sides then
watch each other with pings, and messages go out either as plain datagrams or through a stop-and-wait
protocol that is documented as delivering every message "once, and in order". This project models the
server (`src/UdcServer.cpp`), the per-connection client object (`src/UdcClient.cpp`), the message layouts
(`src/UdcMessage.cpp`) and the C interface that sequences them (`src/udp_connect.cpp`), and proves what
they guarantee, to which peers, and under which conditions they do not.

## How it is built

| file | contents |
|---|---|
| `Bytes.dfy`, `Message.dfy` | bytes, 32-bit words, the datagram of every packet and its inverse, the in-place serializers |
| `Client.dfy` | one endpoint: its state functions, and the class that updates the fields |
| `ServerSpec.dfy`, `Tables.dfy`, `Connected.dfy` | the server as functions on values, stage by stage of `udcProcessEvents`; what a poll and a call may do to its indexes |
| `Server.dfy` | the server object: tables, shared clients, one byte buffer, every method proved against its function |
| `Protocol.dfy`, `Guard.dfy`, `Repetition.dfy`, `Timed.dfy`, `Sessions.dfy`, `Counterexamples.dfy` | the reliable protocol between one sender and one receiver over FIFO channels that lose and duplicate |
| `Link*.dfy`, `World.dfy` | two whole servers exchanging raw datagrams run that protocol |
| `Ledger.dfy`, `Runs.dfy`, `Ghosts.dfy`, `Silence.dfy`, `Newcomers.dfy`, `Entries.dfy` | endpoint ids, indexes, connection events, pending clients and receiver entries over every run of a server |
| `Beats.dfy`, `Rounds.dfy`, `Hearing.dfy`, `Attempts.dfy`, `Status.dfy` | a run of a server as one client sees it; exactly when a reset round begins, a ping goes out, a loss or a timeout is reported, a request is sent; what the caller can ask agrees with what it was told |
| `Reception.dfy`, `Polling.dfy`, `Requests.dfy`, `Timing.dfy`, `Pulse.dfy` | which datagrams a call takes in; the poll loop ends; request and loss bounds |
| `Traffic.dfy`, `EndToEnd.dfy` | the shared buffer; payloads and ping times through bytes |

The layers are connected by proof. A method of `UdcServer` ensures that the value of the object afterwards
(`View()`) is the corresponding function of `ServerSpec` applied to the value before, including every
datagram handed to the socket, byte for byte. The steps of `Protocol` use the same client and receiver
functions. `World` takes two servers and two channels of byte strings, lets both callers do anything the
interface allows and both servers talk to any other peers, and shows that one connected client of the
first and its entry in the second always go through a run of the protocol. The order results are then
about the messages two callers really hand over and get back.

## Findings

- Exactly-once and in order holds over FIFO channels that lose and duplicate in place, as long as no reset round is
  begun at a bad moment. A round, begun after a timeout, can go wrong in two ways, and each has its exact condition.
  - It repeats the message in hand, in some continuation without another round, if and only if the message was
    delivered before or a copy of it is still on its way when the round begins (`Repetition.RoundRepeatsExactly`, and
    `Counterexamples.ResetDuplicates` as a concrete run). So the extra copies of a whole run, consecutive and without
    loss or reordering, are at most the rounds begun at that risk, and a run without such a round delivers exactly once
    (`World.WorldInOrder`, `World.WorldExactlyOnce`).
  - It loses a message, in some continuation without another round, if and only if both an earlier round and the
    message in hand have traffic in flight when it begins (`ResetGuard.FiringIsSafeExactly`, and
    `Counterexamples.StaleResetLoses` as a concrete run). That cannot be when a packet and its answer are gone before
    the reliable timeout (`Timed.PunctualInOrder`); the results above assume it.

  Both conditions are for pairwise distinct messages. Reordering breaks the promise
  (`Counterexamples.ReorderingDuplicates`).
- A round begins exactly when the message in hand was first sent the reliable timeout ago or more, counted from the
  packet that left, since it came to the front or the last round ended (`Rounds.RoundBeginsExactly` for the protocol,
  `Rounds.RoundBeginsOnServers` for whole servers): acknowledgements restart the count and resending does not.
- The receiver's entry for an address survives a disconnect while a new client starts at bit 0. A session that
  finds the entry at 1 has its first message acknowledged and never delivered (`World.WorldNewSession`,
  `Sessions.NewSessionExactly`).
- `include/UdcClient.h:19-23` names the period parameters (ping, timeout); `src/udp_connect.cpp:138-143` and
  `src/udp_connect.cpp:177-182` pass the timeout first and `min(500, timeout / 10)` second. The model follows the
  code. With the periods so passed an endpoint sends at most one CONNECTION_REQUEST
  (`Requests.PassedPeriodsAllowOne`), at the first poll if that comes within min(500, timeout / 10) ms, and the attempt
  is given up at the first poll after that (`Attempts.AttemptExactly`); no polling rate protects a connection from a
  false LOST (`Timing.PassedPeriodsNeverSafe`).
- A completed connection is inserted under the address the handshake came from and erased under the address the
  client sends to. The indexes agree exactly as long as the two are equal (`Ledger.AcceptAgrees`); otherwise a
  disconnected client stays in the address index (`Ghosts.MismatchLeavesGhost`) and blocks its address through every
  further run whose connections are completed from the right addresses (`Ghosts.GhostStays`), though another mismatch
  can push it out (`Ghosts.GhostCanLeave`). The documented silence after a disconnect then fails: of an endpoint that
  timed out or was disconnected, nothing is ever reported again if and only if every client of its id left in the
  address index is connected (`Silence.SilentOnRuns`), and `Silence.DisconnectedRegains` is a run of a new server that
  ends with a REGAINED of an endpoint it disconnected. The order of outcomes and the place of each id do not depend on
  any of this (`Runs.IdsAlways`).
- The branch for datagrams shorter than the header does not write the signature back, nor does a truncated
  reception: one stray byte makes everything sent next unacceptable to every peer (`Traffic.StrayByteMutes`).
- The size offered to the socket is overwritten by each received size. So one call takes in exactly the datagrams
  up to the first that is longer than its predecessor, empty, or behind a reported event
  (`Reception.TakenExactly`); a longer one is thrown away whatever the buffer size, for instance a message behind
  a ping (`Reception.MessageBehindPingIsLost`).
- Both send calls test the size in 32 bits. `Traffic.FitsBufferExactly` says for which sizes the test is wrong, and
  `ServerSpec.SendWF` that a reliable message accepted by the wrong test can never be sent from the buffer.

## Reading the model

- Times are unbounded integers in milliseconds; the code uses 64-bit counts. Values on the wire are 32-bit and
  truncated where the code truncates. Words are laid out as on a little-endian host.
- `std::shared_ptr<UdcClient>` is a reference: in `ServerSpec` the type parameter `R`, with a heap of client
  values, so that the two indexes and the pending queue can share or lose clients as they do in the code.
- `recvfrom` is an oracle: the next datagram of an inbox; an empty datagram and one longer than the size offered
  end the receive loop, the latter after filling the offered bytes. `sendto` appends to an outbox. The clock and
  the iteration order of the hash map are parameters.
- A *pass* is one client's turn in the loop over the connected clients; a poll reaches a client unless a timeout or
  another client's loss ends it before. An *answer* is a pong or a reliable handshake.
- `Runs.Legal` is what every run relies on: fewer than 2^32 connects, each with a fresh client, and no message whose
  size defeats the 32-bit test. `Runs.HonestRun`, where it is asked for, is about completed connections only: the
  handshake that completes one came from the address its client sends to. Handshakes that the code refuses are
  unrestricted. The results of `World`, `Pulse`, `Silence`, `Rounds`, `Hearing` and
  `Attempts` do not ask for it.

## Model

| member | source | states |
|---|---|---|
| World.WorldExactlyOnce | include/udp_connect.h:50-54 | Two servers, any calls on either, any other traffic short of a second connection to the same peer, channels that keep order but lose and duplicate: if no reset round begins while the message in hand was handed over before or a copy of it is on its way, the payloads handed to the receiving caller are the acknowledged submissions, or those and the one in hand, each once and in order |
| World.WorldInOrder | README.md:8 | The same with reset rounds begun when they may: nothing lost or reordered, every acknowledged message delivered, at most one extra consecutive copy in all per round begun at that risk |
| World.WorldNewSession | src/UdcServer.cpp:502-534 | Without reset rounds, whatever entry earlier sessions left: exactly once, except that after an entry of 1 the first message is acknowledged undelivered and all later ones arrive once in order |
| World.SuccessIsIdlePair | src/UdcServer.cpp:422-456 | After any run of a new server, wherever its connections were completed from: a poll that completes one from the address the client sends to, when no connected client sends there yet, leaves the pair the results above are about; and idle, once no reliable traffic of an earlier session of the two addresses is left |
| World.WorldRunsProtocol | src/UdcServer.cpp:340-607 | Every run of the two servers and channels, seen from one connected client, is a guarded run of the protocol ending in a mirroring state, with at most as many resets as rounds begun, and as many at risk as rounds begun at risk |
| World.MoveMirrors | src/UdcServer.cpp:340-607 | One API call, poll, or network move on either side is a run of protocol steps, with at most one reset, and that only when the poll begins a round, at risk only if the message in hand was out there before the poll |
| World.MovedSound | src/UdcServer.cpp:62-151 | Every allowed move keeps the client of the sending server paired with its peer, and the tables of the other server sound |
| World.JourneySound | src/UdcServer.cpp:62-151 | So the pair still stands after the last move of every run |
| Connected.AcceptedIsPaired | src/UdcServer.cpp:441-456 | A handshake from the address the client sends to, where no connected client sends yet, pairs the two |
| Connected.CallPaired | src/UdcServer.cpp:62-109 | Every call but its own disconnect keeps a client paired with its peer, unless it completes another connection to that peer; connections to others may be completed from anywhere |
| Connected.CallIndexed | src/UdcServer.cpp:62-109 | Every call but its own disconnect keeps a connected client under its id and no other |
| IndexTables.PollSettles | src/UdcServer.cpp:153-456 | A poll changes the two indexes only by moving one waiting client into both, and then it reports that connection |
| ResetGuard.FiringIsSafeOnRuns | src/UdcServer.cpp:351-366 | The next row, wherever a guarded run from a fresh start may lead |
| ResetGuard.FiringIsSafeExactly | src/UdcServer.cpp:351-366 | In every state of the invariant about to begin a reset round, for distinct messages: all continuations deliver in order and without loss if and only if no earlier reset traffic, or no copy and no acknowledgement of the message in hand, is in flight |
| ResetGuard.MayLose | src/UdcServer.cpp:504-517 | Whenever that condition fails there is a continuation that fires no further reset and pops the next message undelivered |
| Repetition.RoundRepeatsExactly | src/UdcServer.cpp:351-384 | In every state of the invariant about to begin a reset round that may begin, for distinct messages: some continuation without another round delivers the message in hand once more than before or than its first time, if and only if it was delivered before or a copy of it is in flight; if neither, no such continuation repeats any message |
| Repetition.RoundRepeatsOnRuns | src/UdcServer.cpp:351-384 | The same wherever a guarded run from a fresh start may lead |
| Repetition.InOrderWithRisks | src/UdcServer.cpp:351-384 | Over every guarded run: in order and without loss, extra copies at most the rounds begun with the message in hand out there |
| Repetition.OnceWithoutRisk | src/UdcServer.cpp:351-384 | Exactly once over every guarded run with no such round, however many others there are |
| LinkSender.LoopMirrors | src/UdcServer.cpp:342-384 | One pass over all clients, in any order, is at most one sender poll of the observed client, with a reset exactly when the pass begins a round; its packet is lost at once if a foreign signature is resident |
| LinkSender.OthersUnseen | src/UdcServer.cpp:342-407 | Passes over the other clients send nothing to the peer and leave the observed client's reliable state alone |
| LinkReply.RepliesMirror | src/UdcServer.cpp:153-299 | The sender's receive loop is a sequence of protocol replies delivered or lost, whatever else it takes in |
| LinkReply.HandshakeMirrors | src/UdcServer.cpp:560-595 | A reliable handshake from the peer at the front of the inbox is exactly the sender's reply step |
| LinkReply.PacketUnseen | src/UdcServer.cpp:412-498 | No other packet, from any address, changes the observed client's queue, bit or timer or sends the peer a reliable packet |
| LinkReply.PacketReached | src/UdcServer.cpp:441-450 | No reception takes an address away from its client or gives a connected client another address |
| LinkReply.SubmitMirrors | src/UdcServer.cpp:136-151 | An accepted reliable send on the observed endpoint is exactly a submission |
| LinkReceiver.DeliverMirrors | src/UdcServer.cpp:500-558 | A reliable message or RESET from the peer is the receiver's step, and what the caller is handed is what the protocol delivers |
| LinkReceiver.DeliveriesMirror | src/UdcServer.cpp:153-299 | The receiver's receive loop is a sequence of protocol deliveries and losses, with the event's payload appended exactly when it is the peer's reliable message |
| LinkReceiver.LoopUnseenB | src/UdcServer.cpp:340-410 | A server never sends a reliable handshake of its own accord |
| LinkChannels.PickRemove | src/UdcServer.cpp:163-178 | Losing a raw datagram loses one relevant packet or none; the order of the others stays |
| LinkChannels.PickDuplicate | src/UdcServer.cpp:163-178 | Duplicating a raw datagram in place duplicates one relevant packet in place or nothing |
| Protocol.StepKeeps | src/UdcServer.cpp:346-384 | Each step of sender, receiver and channels keeps the invariant (submitted = popped + queued, delivered = a prefix with consecutive repeats, bit and channel contents consistent), a reset being fired only when it may |
| Protocol.InOrderWithResets | src/UdcServer.cpp:351-366 | Over every guarded run: no message lost or reordered, every popped one delivered, extra copies at most the resets fired |
| Protocol.DeliveredExactlyOnce | src/UdcServer.cpp:500-558 | Over every run without a reset: submitted = popped + queued and delivered = popped or popped with the front of the queue |
| Protocol.ReplyNormal | src/UdcServer.cpp:580-595 | A handshake pops the front message exactly when it acknowledges it, and keeps the invariant |
| Protocol.ForwardWaiting | src/UdcServer.cpp:519-558 | A reliable packet to a waiting receiver is delivered when it is the current message and refused when it is stale |
| Timed.FiresInQuiet | src/UdcClient.cpp:118-139 | When everything in flight is younger than the reliable timeout, the timer fires only after all earlier reset traffic is gone |
| Timed.PunctualInOrder | src/UdcServer.cpp:351-384 | So on a channel faster than the timeout the order result needs no assumption on resets |
| Timed.StepSettles | src/UdcServer.cpp:590-594 | The timer is never started before the end of the last reset round |
| Rounds.RoundBeginsExactly | src/UdcClient.cpp:118-139 | Over every run of the protocol under a positive clock, guarded or not: the next poll begins a reset round if and only if the message in hand was first put into the channel the reliable timeout ago or more, since it came to the front or the last round ended |
| Rounds.RoundBeginsOnServers | src/UdcServer.cpp:346-384 | Over every run of a server after a connection was completed: a poll begins a reset round for the endpoint if and only if it reaches it and the message in hand first went to the socket the reliable timeout ago or more |
| Rounds.FirstSentExactly | src/UdcServer.cpp:579-595 | "First sent": the first message to leave since a message was popped or a round began or ended |
| Beats.RunTells | src/UdcServer.cpp:340-607 | Every run of a server is, to a connected client, passes, answers and queued messages in a row, and nothing else touches it; some poll reports it lost exactly when one of the passes does |
| Beats.AtPollSame | src/UdcServer.cpp:340-410 | When its turn comes in a poll nothing has happened to the client yet, and what its pass sends stays in the outbox of the poll |
| Entries.EntryParityAlways | src/UdcServer.cpp:500-530 | Over every run of a server that knows the address: its entry is the parity of the deliveries since the last RESET, and, when no RESET came, of the messages handed to the caller |
| Entries.RunFolds | src/UdcServer.cpp:500-558 | Over every run, the entry is the fold of what arrived from the address, and as many messages were handed over as the fold delivers |
| Sessions.EntryIsParity | src/UdcServer.cpp:500-530 | The fold over arrivals from a known address ends at the parity of its deliveries since the last RESET |
| Sessions.NewAddressParity | src/UdcServer.cpp:519-530 | For a new address it is the plain parity if and only if the first message came under bit 0 or a RESET has come since |
| Entries.EntryFromLastAlways | src/UdcServer.cpp:500-530 | Over every run: the entry is the other bit of the last reliable message from the address; after a RESET it is 0, or still absent if no message ever came |
| Sessions.NewSession | src/UdcServer.cpp:502-534 | A new client, no resets: exactly once, except that with a leftover entry of 1 the first message is popped undelivered and all later ones arrive once in order |
| Sessions.NewSessionExactly | src/UdcClient.cpp:6-27 | When all of a nonempty submission is acknowledged, it was all delivered if and only if the session did not find the entry at 1 |
| Counterexamples.ResetDuplicates | src/UdcServer.cpp:360-366 | A concrete run with one reset, fired in quiet, that delivers the first message twice |
| Counterexamples.StaleResetLoses | src/UdcServer.cpp:504-517 | A concrete run in which a late HANDSHAKE_RESET makes a message be acknowledged and never delivered |
| Counterexamples.ReorderingDuplicates | src/UdcServer.cpp:519-530 | A concrete run in which two packets change places and a message is delivered again |
| Ledger.AcceptAgrees | src/UdcServer.cpp:441-451 | Completing a connection keeps the two indexes in agreement if and only if the handshake came from the client's outgoing address |
| Ledger.DisconnectAgrees | src/UdcServer.cpp:79-92 | Disconnecting removes both entries of the client and no others |
| Ledger.DisconnectPending | src/UdcServer.cpp:95-108 | Disconnecting a pending id removes it and keeps the ids, and if they were right the indexes and events, right |
| Ledger.AcceptKeeps | src/UdcServer.cpp:422-456 | A completed connection keeps the ids right from whatever address it comes, and the indexes and events if it comes from the client's |
| Ledger.TimeoutKeeps | src/UdcServer.cpp:310-321 | A connection timeout, reported for the oldest pending id, keeps all of it |
| Ledger.ToggleKeeps | src/UdcServer.cpp:397-406 | LOST and REGAINED alternate after SUCCESS, and the flag says which came last |
| Runs.IdsAlways | src/UdcServer.cpp:62-109 | Over every run of a new server, whoever sends what from where: outcomes in connect order and before all pending ids, every issued id in exactly one of pending, connected, timed out, disconnected |
| Runs.CallKeeps | src/UdcServer.cpp:427-455 | One call keeps the ids right always, and the indexes and events when a connection it completes is completed from the client's address |
| Runs.BookAlways | include/udp_connect.h:20-34 | If completed connections were completed from the right addresses, moreover: indexes in agreement, events of each endpoint a prefix of SUCCESS (LOST REGAINED)* or the single TIMEOUT |
| Runs.SilentAfterLeaving | include/udp_connect.h:28-31 | After such a run, no poll reports anything about an endpoint that timed out or was disconnected |
| Silence.SilentExactly | include/udp_connect.h:28-31 | Of an id that was given out and is neither connected nor waiting: over every further run, whatever is called and whatever arrives from wherever, nothing is reported if and only if every client of that id left in the address index is connected |
| Silence.SilentOnRuns | include/udp_connect.h:28-31 | So for every endpoint that timed out or was disconnected in any run of a new server |
| Silence.DisconnectedRegains | src/UdcServer.cpp:79-92 | A run of a new server in which that fails: connect to one address, a handshake from another, LOST, disconnect, a pong from the other address, REGAINED |
| Silence.HauntedSpeaks | src/UdcServer.cpp:468-498 | While a lost client of the id is left in the index, polls at any one time and one pong from its address make it report |
| Ghosts.MismatchLeavesGhost | src/UdcServer.cpp:79-92 | Right after a handshake from another address and a disconnect, the client is still in the address index and no connection can be completed from that address |
| Ghosts.GhostStays | src/UdcServer.cpp:441-451 | That remains so through every further run whose connections are completed from the right addresses |
| Ghosts.GhostCanLeave | src/UdcServer.cpp:79-92 | Another mismatched connection, to the blocked address, takes the entry with it when it is disconnected |
| Ghosts.GhostSpeaks | src/UdcServer.cpp:468-498 | Such a client still reports REGAINED on a pong |
| Newcomers.SuccessStartsFresh | src/UdcServer.cpp:422-456 | After every run of a new server, an endpoint just connected is heard from at that moment, has an empty queue, bit 0, a stopped reliable timer and no ping yet |
| Connected.SuccessIsJustConnected | src/UdcServer.cpp:422-456 | So every SUCCESS, wherever the handshake came from, leaves the client under its own id alone, in that state: where the results of Rounds and Hearing start |
| Runs.TryConnectIsConnect | src/udp_connect.cpp:112-149 | The connect call is the general one at the swapped periods the code passes |
| Polling.EventLowersPressure | src/udp_connect.cpp:208-233 | At a fixed time with nothing new arriving, pending + overdue + 2 x inbox falls with every event returned, for any map order and periods |
| Polling.PollUntilQuiet | include/udp_connect.h:187-190 | The documented update loop ends: every poll but the last returned an event, the last returned nothing and left the final state, and there were no more events than that count |
| Polling.PollOnce | src/udp_connect.cpp:208-233 | One call on the server object, for some order of the map, does and reports what the three stages do |
| Polling.ReportsBounded | src/udp_connect.cpp:208-233 | No more polls in a row can return an event than the count allows |
| Requests.RequestBound | src/UdcServer.cpp:310-335 | Over every run under a clock that never goes back, each endpoint has sent at most ceil(timeout period / attempt period) requests |
| Requests.BudgetIsCeiling | src/UdcClient.cpp:85-93 | The bound, as a ceiling division |
| Requests.PassedPeriodsAllowOne | src/udp_connect.cpp:138-143 | With the periods passed, at most one request, and none for timeouts below 10 ms |
| Attempts.AttemptExactly | src/UdcServer.cpp:301-338 | After a connect call with timeout t at time T >= t, nothing else pending, after any run of a new server and whatever happens while the endpoint waits: a poll reports its TIMEOUT if and only if it comes at or after T + min(500, t / 10); before that, the first poll sends exactly one request, with the id just issued, to the address given, and no other poll sends any |
| Attempts.PeriodsFromTimeout | src/udp_connect.cpp:132-143 | Through every run after it, the endpoint keeps that id and address, t as ping and attempt period, and min(500, t / 10) as connection, lost and reliable timeout |
| Timing.NeverLostExactly | src/UdcClient.cpp:141-159 | Polls at most d apart and pongs within r: an answered connection is never reported LOST if and only if pingPeriod + d + r <= lostPeriod |
| Timing.PassedPeriodsNeverSafe | src/udp_connect.cpp:177-182 | No d and r make the periods passed by the connect calls safe |
| Timing.SilentLinkIsLost | src/UdcServer.cpp:386-406 | With those periods and no reliable traffic, any poll late enough after an answer reports the loss before a ping has gone out |
| Timing.PingsAfterAnswer | src/UdcClient.cpp:141-144 | After an answer accepted at u and none since, a poll of the watch sends a ping if and only if it comes at or after u + ping period |
| Hearing.PingsExactly | src/UdcServer.cpp:386-395 | Over every run of a server after a connection was completed: a pass that reaches the endpoint sends it a PING if and only if it comes a ping period or more after the last answer it accepted |
| Hearing.LossExactly | src/UdcServer.cpp:397-406 | A poll reports the endpoint LOST if and only if it reaches it, comes the lost period or more after the last answer (after the connection, if there was none), and is the first such since |
| Hearing.FirstLoss | src/UdcClient.cpp:151-159 | So with nothing heard since the SUCCESS at T: the first poll to reach it at or after T + lost period reports the loss, and no other poll does |
| Hearing.StatusIs | src/UdcServer.cpp:49-60 | The status is there exactly while the endpoint is not lost, and is the time between the stamp of the last accepted answer and its reception, modulo 2^32 |
| Status.StatusAsTold | include/udp_connect.h:20-34 | Over every honest run: an id has a status if and only if its last reported connection event is SUCCESS or REGAINED and it was not disconnected since |
| Status.UnreliableAsTold | src/UdcServer.cpp:111-134 | An unreliable message that fits is accepted if and only if the endpoint was last reported SUCCESS, REGAINED or LOST and not disconnected since; it leaves as one datagram unless that was LOST, and then nothing is sent |
| Pulse.NeverLostInRuns | src/UdcServer.cpp:342-407 | The same over runs of a whole server, wherever its connections are completed from: if the passes that reach the client are at most d apart and its pings are answered within r, no poll of the run reports it lost, when pingPeriod + d + r <= lostPeriod |
| Pulse.NeverLostAfterSuccess | src/UdcServer.cpp:441-456 | That applies to every endpoint from the poll on that completes its connection, after any run of a new server |
| Pulse.RunTracks | src/UdcServer.cpp:386-406 | Every run of a server, seen from one connected client, is a run of the watch: lost exactly when some poll reported it |
| Traffic.ResidentAlways | src/UdcServer.cpp:17-21 | Over every run without short or truncated receptions the signature stays in the buffer and every datagram sent is a packet under it |
| Traffic.UpdateClientTraffic | src/UdcServer.cpp:346-395 | One pass over a client sends exactly the packets of the pass, to its address, each with the intended id byte |
| Traffic.TurnKeepsSignature | src/UdcServer.cpp:163-178 | A datagram received whole leaves the signature in place if and only if it has a full header or agrees with the signature |
| Traffic.TruncationKeepsSignature | src/UdcServer.cpp:159-161 | A truncated one does if and only if the bytes that landed agree with it |
| Traffic.StrayByteMutes | src/UdcServer.cpp:163-167 | One stray byte makes the next datagram sent unacceptable to every peer |
| Reception.TakenExactly | src/UdcServer.cpp:159-161 | For every inbox and position k: datagram k is taken in by the call if and only if it and all earlier ones are nonempty, the first fits what is offered, no earlier one is shorter than the next, and no earlier turn reported an event |
| Reception.ReceiveIsTurns | src/UdcServer.cpp:159-299 | The call is the turns of the datagrams taken in, and then at most one more datagram thrown away |
| Reception.LongerBehindShorterIsLost | src/UdcServer.cpp:159-161 | Anywhere in the inbox, a datagram longer than the one taken in before it, which reported nothing, is thrown away by the same call |
| Reception.MessageBehindPingIsLost | src/UdcServer.cpp:159-166 | A first reliable message behind a ping is lost although it fits the buffer and would be delivered on its own |
| Traffic.FitsBufferExactly | src/UdcServer.cpp:138-141 | The 32-bit size test means size + header <= buffer size, and lets nothing oversized through, if and only if the sum does not wrap, or wraps to more than the buffer holds |
| Traffic.QueueFitAlways | src/UdcServer.cpp:369-379 | In every reachable state every queued message fits behind the reliable header, so the send asserts hold |
| EndToEnd.UnreliableRoundTrip | src/UdcServer.cpp:129-132 | An accepted unreliable message, received whole, is handed over unchanged if and only if the sender's buffer began with the receiver's signature |
| EndToEnd.ReliableRoundTrip | src/UdcServer.cpp:532-554 | A queued message sent by one pass is handed over unchanged exactly when the receiver's entry is absent or the sender's bit, is acknowledged either way, and stays queued |
| EndToEnd.HandshakeCompletes | src/UdcServer.cpp:422-456 | A handshake datagram completes the connection if and only if its id is that of the first endpoint waiting and the address is not taken |
| EndToEnd.ConnectRoundTrip | src/UdcServer.cpp:412-456 | What any server answers to a request of an endpoint, received while that endpoint is the first one waiting, is its SUCCESS unless the address is taken |
| EndToEnd.PassAnswered | src/UdcServer.cpp:356-392 | Every packet of a pass is answered with the stamp it carried |
| EndToEnd.PingSurvives | src/udp_connect.cpp:190-200 | The status after the answer is (receive time - send time) mod 2^32, although the packet carries only 32 bits of the send time |
| EndToEnd.PunctualPing | src/UdcServer.cpp:477-489 | With a clock that has not gone back the answer is never refused |
| EndToEnd.StatusAfterHandshake | src/UdcServer.cpp:569-598 | A reliable handshake sets the reported ping like a pong |
| ServerSpec.UpdateClientIsPoll | src/UdcServer.cpp:342-407 | The three stages of one pass amount to one poll of the client, its packets appended in order and one LOST event at most |
| ServerSpec.SendWF | src/UdcServer.cpp:136-151 | An accepted reliable message leaves all queues sendable if and only if the 32-bit test was right about it |
| ServerSpec.HandlePacketWF | src/UdcServer.cpp:180-295 | No packet leaves a dangling pointer or an oversized queue entry, nor touches the buffer prefix |
| Client.PollKeeps | src/UdcServer.cpp:346-406 | A pass touches only the reliable bit and timer and the connected flag |
| Message.ParseWire | src/UdcMessage.cpp:14-95 | Every packet is read back from its datagram |
| Message.WireParse | src/UdcServer.cpp:163-295 | Only images of packets are accepted: what is read determines every byte |
| Message.WireLayout | include/UdcMessage.h:12-25 | Every datagram byte by byte: signature, kind, little-endian word, data |
| Message.ForeignSignature | src/UdcServer.cpp:171-176 | A datagram is accepted under its own signature and no other |
| Message.WriteReliable | src/UdcServer.cpp:369-379 | The in-place writes put the whole datagram of a reliable message behind the resident signature |
| Message.WriteUnreliable | src/UdcServer.cpp:129-132 | The same for an unreliable message |
| Message.WriteWord | src/UdcServer.cpp:331-334 | The same for a request, ping or reset |
| Message.WriteReply | src/UdcServer.cpp:412-420 | Overwriting the id byte alone yields the reply with the received word, and leaves the payload in place |
| Message.DeserializeWord | src/UdcMessage.cpp:55-58 | The word read is the one whose memory image lies behind the header |
| Bytes.DecodeEncode32 | src/UdcMessage.cpp:50-58 | A word survives memcpy into and out of the buffer |
| Bytes.Low32Difference | src/UdcServer.cpp:477-489 | Truncating the send time loses nothing modulo 2^32 |
| Client.UdcClient.constructor | src/UdcClient.cpp:6-27 | A new client: bit 0, empty queue, disconnected, both timeout periods from the second argument, attempt period from the first |
| Client.UdcClient.ReceivePongAt | src/UdcClient.cpp:95-108 | Sets ping, both timers and the flag; true exactly when the connection was lost before; Hearing.PingsExactly and Hearing.StatusIs say what follows from it |
| Client.UdcClient.MarkSendReliable | src/UdcClient.cpp:123-129 | Starts the reliable timer unless it runs; Rounds.RoundBeginsExactly says what follows from it |
| Client.UdcClient.ReceiveConnectionHandshakeAt | src/UdcClient.cpp:151-159 | Connected, and heard from now; Hearing.FirstLoss says what follows from it |
| UdcServerImpl.CreateServer | src/udp_connect.cpp:14-28 | No server and an untouched buffer below nine bytes; otherwise an empty server and the signature written in front |
| UdcServerImpl.UdcServer.constructor | src/UdcServer.cpp:10-22 | An empty server over the caller's buffer and socket, signature resident |
| UdcServerImpl.UdcServer.UpdatePending | src/UdcServer.cpp:301-338 | Times out or retries the oldest pending client, with the event and the request datagram |
| UdcServerImpl.UdcServer.SendReliableMessages | src/UdcServer.cpp:346-384 | Sends RESET, begins a reset round, or sends the front message and starts the timer |
| UdcServerImpl.UdcServer.ServeClient | src/UdcServer.cpp:344-406 | One iteration of the client loop: reliable stage, ping, loss, in this order |
| UdcServerImpl.UdcServer.UpdateClientConnectionStatus | src/UdcServer.cpp:340-410 | The loop over the id map in any order, stopping at the first loss |
| UdcServerImpl.UdcServer.ProcessConnectionRequest | src/UdcServer.cpp:412-420 | Answers with the id received |
| UdcServerImpl.UdcServer.ProcessConnectionHandshake | src/UdcServer.cpp:422-456 | Accepts for the first pending client only, unless the address is taken; moves it to both indexes |
| UdcServerImpl.UdcServer.ProcessPing | src/UdcServer.cpp:458-466 | Answers with the time stamp received |
| UdcServerImpl.UdcServer.ProcessPong | src/UdcServer.cpp:468-498 | Refuses unknown addresses and future stamps; refreshes the client and reports REGAINED |
| UdcServerImpl.UdcServer.ProcessReset | src/UdcServer.cpp:500-517 | Zeroes a present entry, leaves an absent one absent, always acknowledges |
| UdcServerImpl.UdcServer.ProcessReliableMessage | src/UdcServer.cpp:519-558 | Flips the entry to the complement of the received bit, acknowledges, reports exactly the payload bytes when due, although the reply is written into the same buffer first |
| UdcServerImpl.UdcServer.ProcessReliableHandshake | src/UdcServer.cpp:560-607 | Pops and flips on a match, refreshes in any case, reports REGAINED |
| UdcServerImpl.UdcServer.ProcessUnreliable | src/UdcServer.cpp:609-627 | Reports exactly the payload bytes |
| UdcServerImpl.UdcServer.DispatchMessage | src/UdcServer.cpp:178-295 | The switch on the id byte and size does what the parsed packet calls for, and nothing for malformed ones |
| UdcServerImpl.UdcServer.HandleReceived | src/UdcServer.cpp:163-178 | Short datagrams ignored without repair, foreign ones ignored with the signature written back |
| UdcServerImpl.UdcServer.ReceiveAll | src/UdcServer.cpp:153-299 | The receive loop with its shrinking offered size, up to the first event |
| UdcServerImpl.UdcServer.ProcessEventsAt | src/udp_connect.cpp:208-233 | Pending, then clients, then receptions, up to the first event, which the record and the buffer tell of |
| UdcServerImpl.UdcServer.TryConnectTo | src/udp_connect.cpp:112-149 | Refuses a zero timeout; otherwise issues the next id and queues a fresh client with the swapped periods |
| UdcServerImpl.UdcServer.DisconnectFrom | src/UdcServer.cpp:74-109 | Erases from both indexes, by id and by outgoing address, or else from the pending queue |
| UdcServerImpl.UdcServer.ErasePending | src/UdcServer.cpp:95-108 | The erasing loop keeps exactly the other ids, in order |
| UdcServerImpl.UdcServer.SendUnreliableMessage | src/UdcServer.cpp:111-134 | Size and id tests; silently drops while the connection is lost; otherwise sends the datagram |
| UdcServerImpl.UdcServer.SendReliableMessage | src/UdcServer.cpp:136-151 | Size and id tests; appends to the queue |
| UdcServerImpl.UdcServer.GetEndPointStatus | src/UdcServer.cpp:49-60 | True with the truncated ping of a connected endpoint, false otherwise |
| UdcServerImpl.UdcSocketMux.ReceiveFrom | src/UdcServer.cpp:159-161 | The reception assumed of the socket: next datagram whole, or truncated with failure, or none |

## Left out

- UdcServerImpl.UdcServer.SendUnreliableMessage: not called with a size + 5 that wraps past 2^32 to something the buffer could hold, because the code then writes past the buffer; Traffic.FitsBufferExactly says which sizes those are.
- Runs.CallKeeps: assumes the same of sizes in both send calls; UdcServerImpl.UdcServer.SendReliableMessage itself is modelled for every size.
- Runs.IdsAlways: covers fewer than 2^32 connects; afterwards createUniqueId wraps and ids repeat.
- UdcServerImpl.UdcSocketMux.ReceiveFrom: one bound socket; with several, the code tries the next one when a reception fails, before the loop ends.
- UdcServerImpl.UdcServer.UpdateClientConnectionStatus: takes the iteration order of the id map as a parameter and holds for every order.
- World.WorldExactlyOnce: the sender completes no second connection to the peer's address (only a handshake from a third address could, since the peer's own is taken); the datagrams of two such clients would mix.
- Timed.PunctualInOrder: stated for one sender and receiver; datagrams carry only 32 bits of their age, so it is not restated for raw datagrams between whole servers.
- ResetGuard.FiringIsSafeExactly: exact at each reset of one sender and receiver for pairwise distinct messages; equal messages can hide a loss. Not restated for whole servers.
- Repetition.RoundRepeatsExactly: the same.
- Attempts.AttemptExactly: for a connect call with nothing else pending; behind others an endpoint waits until they are gone, since only the first one pending is served.
- Liveness of delivery under fair channels: only safety is proved; a poll loop at a fixed time does terminate.
- Reordering channels: only the counterexample.
- WinSock sockets and binding: one receive oracle and one outbox stand for them.
- Name resolution through getaddrinfo and udcTryConnect by name: foreign calls.
- UdcPacketLogger and the log file argument of udcCreateServer: output formatting only.
- The address hash map: a Dafny map over an address value; bucket behaviour is not part of this model.
- udcDeleteServer, exceptions during construction, the event getters, incomingAddress, and the C# wrapper.
- Clock overflow of 64-bit milliseconds, and big-endian hosts.
