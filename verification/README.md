# ctunnel, verified model

ctunnel is a single-threaded reverse tunnel: a client behind a firewall keeps one
authenticated control connection to a server and opens work connections through which the
server carries public TCP streams; UDP datagrams travel on the control connection. This
project models its state machines in Dafny and proves what they keep over whole runs.

| files | what they model |
|---|---|
| `Bytes`, `Protocol`, `UdpCodec`, `Base64`, `ProxyHeader` | wire and key-file codecs |
| `Ring`, `Metrics`, `ReplayWindow`, `Bags` | ring buffer, counters, replay window, sums over tables |
| `Records`, `RelaySpec`, `Relay` | record framing, one encrypted relay as functions and as the class that updates its fields |
| `RelaySafety`, `RelayPair`, `RelayFaithful`, `RelayProgress`, `RelayClose`, `RelayStall`, `RelayFinish`, `RelayLedger` | two relays over a work connection: safety, conservation, gating, close, stalling, completion, accounting |
| `ControlChannel`, `Handshake`, `HandshakeAgreement`, `StreamBinding`, `StreamExchange`, `SealedOnce` | control messages, key agreement, START/READY binding, and keys and nonces over all sessions |
| `ServerSpec`, `ServerSockets`, `ServerTables`, `ServerGauges`, `ServerInvariants`, `ServerSafety`, `ServerWaiting`, `ServerOutcomes`, `ServerAnswers`, `ServerEffects`, `Server` | the server's tables: functions, invariants over every run, what each event does seen from outside, the class that updates them |
| `ClientSpec`, `ClientSafety`, `ClientOutcomes`, `ClientEffects`, `Client` | one client session, likewise |
| `UdpTunnel`, `UdpDelivery`, `UdpForgetting` | the UDP path through both ends |

How it is built. The ring, the relay, the tables, the control channel, the windows and the
counters change in place, so each is a class (`Rings.Ring`, `Relays.Relay`,
`Servers.Server`, `Clients.Tunnel`, `ControlChannel.Control`, `ReplayWindow.Tracker`,
`Metrics.Registry`) whose methods are proved equal to a function of the old state; invariants
over runs are proved of those functions. What the operating system, the clock and the peer do
(fragment sizes, short writes, failures, arriving bytes, new descriptors, time) are arguments
of each step, so the theorems hold for all of them. Cryptography is ideal: a box opens only if
it was sealed under the same key, number and header; signatures and MACs verify only on what
was signed; hashes are injective; the key exchange commutes.

Five facts about the code that the proofs brought out:

* A relay never stalls itself exactly when its ring holds two chunks and 60 bytes
  (`RelayStall.NoStallIffRoomy`), that is from 32828 bytes on. Builds with
  `STREAM_BUFFER_SIZE` 16384 can stall for ever (`RelayStall.SmallRingStalls`,
  `RelayStall.StallIsForEver`): the work side is not read because its ring is too full, and
  what is in it waits for bytes that are not read. From a larger ring every smooth run can be
  completed, from a smaller one not every (`RelayFinish.CompletesIffRoomy`).
* A peer can hold a pending stream and an idle work connection that wait for each other
  exactly when its stream limit exceeds the size of the starting table
  (`ServerWaiting.MutualWaitIff`).
* A call of `ct_control_send` with a message too long for a frame takes no number and does
  not stop later ones, so what the peer accepts need not be a prefix of all calls
  (`ControlChannel.OversizedCallIsSkipped`). It is one exactly as long as the peer has accepted
  no more messages than were passed before the first refused call
  (`ControlChannel.PrefixOfAllCallsIff`); it is always a prefix of the calls that took a number.
* A UDP reply can be refused as a replay although nobody replayed anything: the client
  measures idleness from the moment it sends a reply, the server from the moment it receives
  it, so the client can forget a session the server still has. It then opens the session again
  under the same identifier and numbers its replies from one, and the server drops those whose
  numbers it has had before (`UdpForgetting.ReplyCanBeRefused`, `UdpDelivery.ReplyForwardedIff`).
  Every reply passes the check in its turn exactly if the client never replies on a session it
  has just opened under an identifier it has replied under before
  (`UdpDelivery.NoReplyRefusedIff`). The other direction never refuses anything
  (`UdpDelivery.DatagramHandedOnIff`).
* The buffer gauge misses the PROXY header of a relay until the relay's first event, since
  `ct_relay_init` queues the header without accounting for it; otherwise the gauge is exactly
  what all rings hold (`RelayLedger.FreshRunAgrees`, `RelayLedger.GaugeIsContentsIff`).

Scope: the relay theorems are about encrypted relays whose reads are delivered only when they
were asked for; the ownership theorems assume that `ct_relay_init` succeeds; replay windows
are at most 64 wide; identifiers contain no NUL; runtime limits are at most the compiled ones
(src/config/config.c:527-536).

Main results, by component:

* relay: `RelayPair.StreamsArePrefixes`, `RelayFaithful.StreamsAreConserved`,
  `RelayClose.CloseLosesNothing`, `RelayStall.HalfCloseComesLast`,
  `RelayStall.NoStallIffRoomy`, `RelayFinish.CanAlwaysComplete`, `RelayFinish.CompletesIffRoomy`,
  `RelayLedger.FreshRunAgrees`, `Relays.Relay.Process`
* control, handshake, binding: `ControlChannel.AcceptedIsPrefix`,
  `ControlChannel.PrefixOfAllCallsIff`, `HandshakeAgreement.ServerAgrees`,
  `HandshakeAgreement.ClientCompletes`, `StreamExchange.RelaysAgree`,
  `StreamExchange.OneRelayPerEnd`, `SealedOnce.NothingSealedTwice`,
  `ReplayWindow.WindowRefinesSet`
* server and client: `ServerSafety.EverySocketHasOneOwner`,
  `ServerSafety.ShutdownLeavesNothing`, `ServerSafety.QuotaHolds`, `ServerSafety.RefsFit`,
  `ServerSafety.ListenersNeverOverlap`, `ServerSafety.GaugesAreExact`,
  `ServerWaiting.MutualWaitIff`, `ServerAnswers.FrameOutcome`, `ServerEffects.AnswerIff`,
  `ServerEffects.RegisterOutcome`, `ServerEffects.ReplyOutcome`, `ServerEffects.SweepOutcome`,
  `ClientSafety.ClientKeeps`, `ClientSafety.ExitLeavesNothing`
* UDP: `UdpDelivery.DatagramHandedOnIff`, `UdpDelivery.ReplyForwardedIff`,
  `UdpDelivery.NoReplyRefusedIff`, `UdpDelivery.DeliveredInOrder`
* codecs: `Protocol.FrameInverse`, `Protocol.RegistrationRoundTrip`,
  `UdpCodec.DatagramRoundTrip`, `Base64.DecodeIffEncoded`, `ProxyHeader.ReadBuilt`

## Model

| member | source | states |
|---|---|---|
| Rings.Ring.constructor | src/util/ring.c:5-13 | A new ring is empty and has the requested capacity. |
| Rings.Ring.Write | src/util/ring.c:21-32 | A write appends as much as there is room for, around the end of the array; the ring's contents grow by exactly that prefix. |
| Rings.Ring.Read | src/util/ring.c:33-45 | A read takes the oldest bytes, wrapping or not, and leaves the rest. |
| Rings.Ring.Peek | src/util/ring.c:46-50 | The run returned is a prefix of the contents, nonempty unless the ring is empty. |
| Rings.Ring.Consume | src/util/ring.c:51-56 | Consuming drops that many bytes, at most all, from the front. |
| Metrics.Registry.Plus | src/util/metrics.c:6-25 | Adding saturates at 2^64 - 1, changes only its counter, and raises the tracked peak. |
| Metrics.Registry.Minus | src/util/metrics.c:26-35 | Subtracting clamps at zero and changes only its counter. |
| Bytes.ValueOfBigEndian | src/protocol/protocol.c:4-19 | Every number below 256^n survives being written as n big-endian bytes and read back. |
| Bytes.BigEndianOfValue | src/protocol/protocol.c:20-31 | Every byte string is the big-endian form of the number it is read as. |
| Bytes.PutU64 | src/protocol/protocol.c:14-19 | The loop writes the big-endian form at the offset and touches nothing else. |
| Bytes.ReadU64 | src/protocol/protocol.c:26-31 | The loop reads the number whose big-endian form lies at the offset. |
| Protocol.FrameInverse | src/protocol/protocol.c:61-94 | A string of header length decodes to h exactly when h encodes to it. |
| Protocol.UnpackIffPacked | src/protocol/protocol.c:95-114 | Unpacking succeeds exactly on a packed string that fits the caller's buffer, and yields it. |
| Protocol.UnpackPacked | src/protocol/protocol.c:95-114 | A packed string between any other bytes unpacks to itself and leaves the offset behind it. |
| Protocol.RegistrationRoundTrip | src/protocol/protocol.c:129-177 | Every legal registration, TCP or UDP, decodes at the server to what the client encoded (src/client/client.c:218-243). |
| UdpCodec.EndpointRoundTrip | src/net/net.c:325-353 | An encoded endpoint decodes to itself inside any surrounding bytes. |
| UdpCodec.DatagramRoundTrip | src/net/net.c:354-392 | A legal datagram packs exactly when it fits the buffer, and then unpacks to itself. |
| UdpCodec.ServerPack | src/server/server.c:281-301 | The server's packer agrees with the shared one on every input and capacity, failures included. |
| UdpCodec.ServerUnpack | src/server/server.c:303-323 | The server's unpacker accepts the same strings as the shared one and yields the same fields. |
| Base64.DigitInverse | src/crypto/crypto_monocypher.c:44-57 | A character has a value exactly when it is the digit of that value; padding has none. |
| Base64.GroupInverse | src/crypto/crypto_monocypher.c:58-91 | Four characters decode to a group exactly when they are its canonical encoding; padding only in the last group. |
| Base64.DecodeIffEncoded | src/crypto/crypto_monocypher.c:21-91 | A text decodes to b exactly when b is nonempty and the text is its encoding: decoding inverts encoding and accepts canonical text only. |
| Base64.EncodeInto | src/crypto/crypto_monocypher.c:21-41 | The loop fills the buffer with the encoding and a terminator exactly when both fit, otherwise changes nothing. |
| Base64.DecodeInto | src/crypto/crypto_monocypher.c:58-91 | The loop succeeds exactly on an encoding of as many bytes as expected, and yields them. |
| ProxyHeader.ReadBuilt | src/net/proxy_protocol.c:60-90 | A reader of section 2.2 of the PROXY protocol specification gets back the normalized endpoints from a version 2 header and stops exactly behind it. |
| ProxyHeader.HeaderIsInjective | src/net/proxy_protocol.c:60-90 | Different normalized endpoint pairs never give the same header. |
| ProxyHeader.BuiltIff | src/net/proxy_protocol.c:16-30 | A header is built exactly for two endpoints of one family, given 28 or 52 bytes; two mapped addresses count as IPv4. |
| ProxyHeader.WriteV2 | src/net/proxy_protocol.c:60-90 | The bytes written are that header, nothing behind it changes, and a refused pair changes nothing. |
| Records.DecodeAcceptsExactly | src/protocol/protocol.c:115-127 | The record header decoder accepts exactly the header of the next record in sequence within the size limit. |
| Records.OpenedWasSealed | src/net/relay.c:206-233 | Whatever opens was sealed, under that number, header and box (ideal AEAD). |
| Records.WholeRecords | src/net/relay.c:206-233 | A byte stream of sealed records and an incomplete rest holds exactly those records. |
| RelaySpec.ProcessIsAfter | src/net/relay.c:272-318 | One call, accounting and error exits included, moves the relay as the staged step does and returns its verdict. |
| RelaySafety.AfterHolds | src/net/relay.c:272-318 | Whatever bytes arrive, one call keeps: sealed records are those of the bytes taken from direct, what is queued or sent is their wire form, and what was opened is a prefix of the peer's plaintext. |
| RelayPair.StreamsArePrefixes | src/net/relay.c:158-318 | For every interleaving, fragmentation and arbitrary bytes on the work connection, what one end sends to its direct socket is a prefix of its PROXY header and what the other end read. |
| RelayFaithful.StreamsAreConserved | src/net/relay.c:158-318 | On a faithful channel header and plaintext read equal what was delivered, what is queued, and what the records still in rings or in flight hold; the remaining-header counter is exactly the unsent header bytes and the pending flag says whether there are any. |
| RelayFaithful.DecryptExpected | src/net/relay.c:206-233 | On a faithful channel the decrypt loop never fails. |
| RelayProgress.GatedAppendsFit | src/net/relay.c:137-157 | A read that was asked for never truncates: the whole record fits to_work and all bytes received fit work_input. |
| RelayProgress.PlaintextFits | src/net/relay.c:206-233 | Every plaintext the loop opens fits to_direct. |
| RelayProgress.GatesAreTight | src/net/relay.c:137-157 | Direct is read exactly while a full chunk's record would leave more than 4 bytes free, work exactly while a full read would leave some. |
| RelayProgress.GateStaysOpen | src/net/relay.c:137-157 | Serving one socket never withdraws read interest in the other. |
| RelayProgress.AfterDrained | src/net/relay.c:272-294 | After every successful call the head record is incomplete or to_direct lacks room for it. |
| RelayProgress.DrainedNeverStalls | src/net/relay.c:137-157 | With two chunks and 60 bytes of ring, every closed read gate comes with write interest opposite. |
| RelayProgress.RoomyValues | src/net/relay.c:13-17 | That is every buffer size from 32828 on: the configured 65536 and 131072, but neither 16384 nor 32768. |
| RelayStall.HalfCloseComesLast | src/net/relay.c:295-312 | Whatever bytes arrive from a peer whose key seals records in sequence, as every relay does, a half-close toward direct happens only when every complete record received has been opened and sent, and one toward work only when everything read has been sealed and sent. |
| RelayStall.RoomyNeverStalls | src/net/relay.c:137-157 | In no run of two relays, whatever bytes are on the work connection, does one with a large enough ring stall. |
| RelayStall.SmallRingStalls | src/net/relay.c:13-17 | For every smaller ring an ordinary run of three events leaves a relay stalled. |
| RelayStall.StallIsForEver | src/net/relay.c:137-157 | A stalled relay stays stalled through every further event it asks for, until it closes. |
| RelayStall.NoStallIffRoomy | src/net/relay.c:13-17 | A build never stalls itself in any run exactly when its ring holds two chunks and 60 bytes. |
| RelayClose.CloseLosesNothing | src/net/relay.c:295-312 | In runs without I/O failure, each half-close and each close comes only after everything the other end read, header first, has been sent. |
| RelayFinish.AfterIsPrompt | src/net/relay.c:295-312 | Every call leaves the relay with each end of file passed on as soon as nothing waits before it, and closed if both are. |
| RelayFinish.FailureCloses | src/net/relay.c:272-294 | A failed read, or a failed send of something, closes the relay and is reported. |
| RelayFinish.VerdictIsClosed | src/net/relay.c:272-318 | A call reports the end of the relay exactly when it leaves it closed. |
| RelayFinish.CanAlwaysComplete | src/net/relay.c:137-157 | From every smooth run of roomy relays, whatever is in rings and in flight, events the relays ask for bring both ends to close with everything taken in delivered behind the header. |
| RelayFinish.StartCanComplete | src/net/relay.c:38-112 | A pair that has just started can be completed whatever its ring size. |
| RelayFinish.CompletesIffRoomy | src/net/relay.c:13-17 | Every smooth run can be completed exactly when the ring holds two chunks and 60 bytes. |
| RelayLedger.SyncCovers | src/net/relay.c:28-35 | Accounting moves the buffer gauge by exactly what this relay's rings changed, without saturating or clamping. |
| RelayLedger.CloseCovers | src/net/relay.c:113-136 | Closing hands back exactly this relay's share and one of each stream gauge. |
| RelayLedger.ProcessBalanced | src/net/relay.c:272-318 | Every exit of a call leaves the gauges balanced with the relay. |
| RelayLedger.GaugesAgree | src/net/relay.c:107-136 | Over any run of opens, calls and closes of any number of relays: buffer gauge = summed accounted bytes, each relay's accounted bytes = its ring contents but for a header not served yet, opened = closed + active, peak at least current. |
| RelayLedger.FreshRunAgrees | src/util/metrics.c:6-34 | From process start, the gauge plus the unserved headers is what all rings together hold. |
| RelayLedger.GaugeIsContentsIff | src/net/relay.c:85-112 | The gauge is what all rings hold exactly when no open relay waits with its header for its first event. |
| Relays.Relay.constructor | src/net/relay.c:38-112 | A new relay has empty rings, zero sequence numbers and its header queued first. |
| Relays.Relay.Events | src/net/relay.c:137-157 | The interest returned is that of the abstract state, gates and close flags included. |
| Relays.Relay.EncryptChunk | src/net/relay.c:191-205 | Sealing a chunk appends one framed record under the next number, or fails without using one. |
| Relays.Relay.DecryptReady | src/net/relay.c:206-233 | The loop over the ring opens records as the recursive specification does, failures included. |
| Relays.Relay.Close | src/net/relay.c:113-136 | Closing empties the rings and hands back the relay's share of every gauge; a second call changes no counter. |
| Relays.Relay.Process | src/net/relay.c:272-318 | The method on three rings in place computes the same state, counters and result as the specification. |
| ReplayWindow.AcceptRefines | src/net/net.c:794-811 | One call gives the verdict of the unbounded set, and the window goes on describing it. |
| ReplayWindow.WindowRefinesSet | src/client/client.c:54-71 | After any calls a number is accepted exactly when it is nonzero, new, and above or fewer than W below the greatest accepted one. |
| ReplayWindow.NoReplay | src/server/server.c:217-234 | A number once accepted is refused by every later call. |
| ReplayWindow.Tracker.Check | src/net/net.c:794-811 | The in-place shift and mask computes that verdict and window. |
| ControlChannel.AcceptedIsPrefix | src/net/net.c:482-530 | For every byte stream presented, the accepted messages are a prefix of the numbered ones the peer sent: type, stream and payload. |
| ControlChannel.CaughtUpStays | src/net/net.c:482-530 | A peer that has accepted everything numbered so far accepts the next message when it arrives as it was sent. |
| ControlChannel.ControlNoncesDistinct | src/crypto/crypto_monocypher.c:456-459 | In no run of sends, failures and the last number included, are two messages sealed under one nonce. |
| ControlChannel.OversizedCallIsSkipped | src/net/net.c:482-503 | A call that is too long is refused without a number and the next one is delivered alone: the accepted list is not a prefix of all calls. |
| ControlChannel.PrefixOfAllCallsIff | src/net/net.c:482-530 | The accepted messages are a prefix of all calls exactly when there are no more of them than calls before the first refused one, a refused call being one that is too long or finds no number left. |
| ControlChannel.NumberedIffNoneRefused | src/net/net.c:482-503 | The numbered calls are all calls exactly when none was refused. |
| ControlChannel.SendSucceedsIff | src/net/net.c:482-503 | A send succeeds exactly when it is not refused, its type is known, memory is there and everything is written. |
| ControlChannel.RecvSucceedsIff | src/net/net.c:504-530 | A receive succeeds exactly when it accepts one message, and otherwise changes nothing. |
| ControlChannel.Control.SendMessage | src/net/net.c:482-503 | Sending in place advances the counter and seals exactly as specified on every exit. |
| ControlChannel.Control.ReceiveMessage | src/net/net.c:504-530 | Receiving in place accepts and advances exactly as specified on every exit. |
| Handshake.TranscriptInjective | src/net/net.c:531-556 | Equal transcripts mean equal hellos, identities, ciphers, ephemerals and session numbers. |
| Handshake.PeerEphemeralIsClients | src/net/net.c:649-742 | The ephemeral the server reads back at its saved offset is the one the client sent. |
| HandshakeAgreement.ServerAgrees | src/net/net.c:649-742 | Every completed server run has a client run by the authorized key holder with the same transcript, identity, cipher and session and mirrored keys. |
| HandshakeAgreement.ClientAgrees | src/net/net.c:574-644 | Every completed client run has a server run with the same facts, and the keys mirror once that run completes. |
| HandshakeAgreement.ClientCompletes | src/net/net.c:574-644 | Every client run that has accepted AUTH_OK has a completed server run by the holder of the configured key with the same facts, session and mirrored keys. |
| HandshakeAgreement.CompletesIff | src/net/net.c:565-742 | Undisturbed, an authorized client that knows the server's key and that server both complete, AUTH_OK included, exactly when both allow the compiled cipher. |
| HandshakeAgreement.ControlKeysDistinct | src/crypto/crypto_monocypher.c:392-413 | A control key determines its direction and transcript. |
| Handshake.LabelsDistinct | src/crypto/crypto_monocypher.c:392-449 | No key-derivation label serves two purposes. |
| StreamBinding.MacInputInjective | src/net/net.c:828-879 | Equal stream MAC inputs bind equal session, client, work id, service, stream, random, mode, metadata, type, role and result. |
| StreamBinding.WorkMacInputInjective | src/net/net.c:751-768 | Equal work MAC inputs bind equal session, client and work id. |
| StreamBinding.DataKeysCross | src/crypto/crypto_monocypher.c:415-449 | With equal stream parameters each end's send key and nonce base are the other's receive ones. |
| StreamBinding.DataKeysDistinct | src/crypto/crypto_monocypher.c:415-449 | Different master keys, streams or directions never share a data key. |
| StreamExchange.RelaysAgree | src/net/net.c:880-993 | Whatever arrives as START and READY, a relay the client starts was started by the server with equal parameters and metadata, and a relay the server starts has one at the client with crossed keys (src/server/server.c:620-648). |
| StreamExchange.OneRelayPerEnd | src/client/client.c:408-471 | A work connection is used up by the frame heard on it and a starting stream by the answer to it, so a stream starts at most one relay at each end (src/server/server.c:923-938). |
| SealedOnce.RelayRunsNoncesDistinct | src/net/relay.c:191-205 | In no run of a pair of relays, whatever arrives, does either seal two records under one nonce. |
| SealedOnce.NothingSealedTwice | src/crypto/crypto_monocypher.c:392-459 | Over any number of sessions, both ends, all their control messages and all records of all relays they start, no two are sealed under the same key and nonce. |
| StreamExchange.Completes | src/net/net.c:880-993 | For every mode, PROXY mode and pair of endpoints there is, START and READY delivered as sent start one relay at each end. |
| ServerSockets.PeerCloseMoves | src/server/server.c:139-185 | Closing a peer closes each socket in its tables exactly once and no other. |
| ServerSockets.MatchMoves | src/server/server.c:664-677 | Matching hands sockets from queue to queue, or closes both of a pair it gives up; none is lost or closed twice. |
| ServerSockets.RegisterMoves | src/server/server.c:471-600 | A refused registration leaves no listener open; an accepted one owns exactly what was bound. |
| ServerTables.MatchTables | src/server/server.c:664-677 | Matching keeps every bound, quota and identifier invariant and stops with an empty queue unless the starting table is full. |
| ServerTables.StartingFindsSlot | src/server/server.c:620-648 | A ready stream finds the first closed slot and starts its relay there with its own sockets. |
| ServerTables.CreateSessions | src/server/server.c:248-279 | A new UDP session clashes with no other and leaves every service within its limit. |
| ServerTables.UdpCreateIff | src/server/server.c:248-279 | A session is refused exactly when the peer's sessions of all services together reach this service's limit or the table's size. |
| ServerGauges.PeerCloseTracks | src/server/server.c:158-177 | Closing a peer lowers each gauge by exactly the peer's share, with no clamping. |
| ServerOutcomes.MatchTakes | src/server/server.c:664-677 | Matching takes streams oldest first and work connections newest first and stops only when a queue is empty or the starting table is full. |
| ServerOutcomes.MatchStarts | src/server/server.c:664-677 | When every START can be sent, as many streams start as both queues and the table allow, the j-th oldest on the j-th newest connection. |
| ServerOutcomes.ExpirePendingDrops | src/server/server.c:1016-1024 | Exactly the pending streams whose deadline has passed are dropped; every other keeps its multiplicity. |
| ServerOutcomes.ExpireStartingDrops | src/server/server.c:1025-1031 | Exactly the overdue starting streams are dropped. |
| ServerOutcomes.ExpireIncomingDrops | src/server/server.c:1006-1011 | Exactly the overdue incoming connections are dropped. |
| ServerOutcomes.UdpExpireFrees | src/server/server.c:393-401 | Exactly the idle UDP sessions are freed, each in its place. |
| ServerOutcomes.ConnectionKeptIff | src/server/server.c:939-988 | A public connection is queued exactly when its endpoints are known, the pending queue is below its limit and the peer below its quota; refused, it leaves no trace. |
| ServerOutcomes.AcceptedIff | src/server/server.c:807-825 | A control connection is kept exactly below the table's size and two per address. |
| ServerOutcomes.FreePeerIff | src/server/server.c:878-883 | A slot is found exactly when one below the runtime limit is inactive. |
| ServerAnswers.MatchDoes | src/server/server.c:664-677 | Whatever START messages can be sent, matching takes streams oldest first and connections newest first, each turn uses an identifier, and exactly the turns whose START was sent start a stream, with that pair, identifier and deadline. |
| ServerAnswers.FrameOutcome | src/server/server.c:826-907 | A good HELLO only marks the connection; a verified AUTH on a greeted one with a free slot makes it a peer with that socket, session and access list; a verified BIND with room makes it a work connection of its session; everything else closes it and changes nothing more. |
| ServerAnswers.BecomesActiveIff | src/server/server.c:872-901 | A frame makes some peer active exactly when it is a verified AUTH on a greeted connection and a slot is free. |
| ServerEffects.LoseOutcome | src/server/server.c:139-185 | Losing the control connection ends the peer and closes exactly its sockets. |
| ServerEffects.AnswerIff | src/server/server.c:923-938 | A verified READY turns the stream into a relay of its own two sockets and identifier; any other answer closes both; either way it is gone from the starting table and nothing else changes. |
| ServerEffects.ReplyOutcome | src/server/server.c:362-391 | A datagram from the client ends the peer exactly if it goes the wrong way or is good and cannot be sent; a good one refreshes its session; one refused for session, service, source or number changes nothing. |
| ServerEffects.DatagramOutcome | src/server/server.c:325-360 | A datagram from outside goes out on its source's session or a new one while there is room, is dropped without trace if too long or without room, and ends the peer exactly if it should go out and cannot be sent. |
| ServerEffects.RegisteredIff | src/server/server.c:471-600 | A TCP or UDP service is recorded, with every value of the request and what was bound, exactly when it is valid, new, within both limits, allowed, bound, and (TCP) overlapping nothing; refused, nothing changes or stays open. |
| ServerEffects.RegisterOutcome | src/server/server.c:471-600 | The same for the whole event, which ends the peer if the reply cannot be sent. |
| ServerEffects.SweepOutcome | src/server/server.c:1012-1045 | The sweep drops exactly the overdue pending and starting streams and idle sessions of an active peer and leaves every other entry; a silent peer is ended. |
| ServerEffects.ConnectOutcome | src/server/server.c:939-988 | The public connection event queues and matches exactly within limits and quota, and otherwise leaves no trace. |
| ServerEffects.RelayOutcome | src/server/server.c:998-1002 | A closed relay frees its slot and its two sockets and nothing else. |
| ServerEffects.AcceptOutcome | src/server/server.c:807-825 | The control connection event keeps it exactly within table and address limits, with its deadline. |
| ServerEffects.ExpireIncomingOutcome | src/server/server.c:1006-1011 | The event drops exactly the overdue connections and touches no peer. |
| ServerEffects.OverlapIff | src/net/net.c:394-426 | Two listeners overlap exactly when some concrete address and port would reach both. |
| ServerInvariants.StepKeeps | src/server/server.c:806-1046 | Every event with every outcome keeps ownership, gauges, bounds, quotas, sessions and listener separation. |
| ServerInvariants.ServiceJoins | src/server/server.c:434-451 | A service whose listeners overlap none existing keeps all listeners pairwise apart. |
| ServerSafety.EverySocketHasOneOwner | src/server/server.c:806-1058 | In every reachable state an open socket has exactly one owner among all tables, others none, and nothing was closed twice. |
| ServerSafety.ShutdownLeavesNothing | src/server/server.c:1047-1058 | From every reachable state the exit path leaves no socket open and closes none twice. |
| ServerSafety.QuotaHolds | src/server/server.c:464-470 | Pending, starting and relayed streams of a peer never exceed the smaller of the two limits (src/server/server.c:957-986). |
| ServerSafety.ReadyAlwaysStarts | src/server/server.c:620-628 | In every reachable state READY on a starting stream adds a relay and closes nothing. |
| ServerSafety.RefsFit | src/server/server.c:757-803 | Rebuilding the event table never exceeds its capacity (src/server/server.c:704-706). |
| ServerSafety.NoMutualWait | src/server/server.c:664-677 | With a stream limit at most the starting table's size no peer holds both a pending stream and an idle work connection. |
| ServerSafety.TwoPerAddress | src/server/server.c:807-825 | No three unfinished connections come from one address. |
| ServerSafety.ListenersNeverOverlap | src/server/server.c:432-451 | Any two listeners of any services of any peers do not overlap, wildcards included (src/net/net.c:394-426). |
| ServerSafety.ControlNeverOverlapped | src/server/server.c:432-451 | No service listener overlaps a control listener. |
| ServerSafety.ServicesAreAllowed | src/server/server.c:535-545 | Every registered service's address is the allowed one and its port in a permitted range, it has an id of its own, and both limits hold (src/config/config.c:790-797). |
| ServerSafety.GaugesAreExact | src/server/server.c:664-677 | The pending, idle and UDP gauges equal the summed tables in every reachable state. |
| ServerSafety.OneSessionPerSource | src/server/server.c:236-279 | At most one active UDP session per service and source endpoint. |
| ServerSafety.SessionLimitHolds | src/server/server.c:248-279 | Each service stays within its own limit and each session belongs to a registered service. |
| ServerSafety.IdsAreDistinct | src/server/server.c:601-619 | Until identifiers wrap, a peer's streams and sessions carry different ones, all handed out. |
| ServerWaiting.MutualWaitIff | src/server/server.c:664-677 | Some reachable state has a peer with that limit waiting for itself exactly when the limit exceeds the starting table's size. |
| Servers.Search | src/server/server.c:452-463 | The table scans return the first matching entry, or the length. |
| Servers.Server.constructor | src/server/server.c:702-737 | The tables start empty with every relay slot closed. |
| Servers.Server.ClosePeer | src/server/server.c:139-185 | The nested loops close the peer as specified and vacate its record; no other record changes. |
| Servers.Server.CountStreams | src/server/server.c:464-470 | The loop counts pending, starting and open streams. |
| Servers.Server.BeginRelay | src/server/server.c:601-619 | A full table is refused unchanged; otherwise the stream takes the next nonzero identifier and is queued exactly if START was sent. |
| Servers.Server.MatchPending | src/server/server.c:664-677 | The loop in place equals the recursive matching, gauges and sockets included. |
| Servers.Server.FinishRelay | src/server/server.c:620-655 | READY fills the first closed slot; anything else closes both sockets. |
| Servers.Server.RegisterService | src/server/server.c:471-600 | The checks in order, the bind and the conflict scan give the specified table, sockets and refusals. |
| Servers.Server.Overlaps | src/server/server.c:432-451 | The triple loop finds a conflict exactly when one exists. |
| Servers.Server.Connected | src/server/server.c:939-988 | A public connection is refused at exactly the limits or queued and matched. |
| Servers.Server.AnswerArrives | src/server/server.c:923-938 | A frame on a starting connection finds its stream and settles it. |
| Servers.Server.FrameArrives | src/server/server.c:826-907 | Hello, bind and auth frames take the connection to the right table or close it. |
| Servers.Server.AcceptConnection | src/server/server.c:807-825 | A connection is accepted within the table and two per address. |
| Servers.Server.ExpirePendingOf | src/server/server.c:1016-1024 | The swap-remove loop drops exactly what the recursive expiry drops. |
| Servers.Server.ExpireStartingOf | src/server/server.c:1025-1031 | Likewise for starting streams, closing both sockets. |
| Servers.Server.SweepPeer | src/server/server.c:1012-1045 | The end-of-loop sweep of a peer is one step of the model. |
| Servers.Server.DatagramArrives | src/server/server.c:325-360 | An external datagram finds or opens its session, numbers it, and closes the peer if it cannot be forwarded. |
| Servers.Server.ReplyArrives | src/server/server.c:362-391 | A reply is checked against session, service, source and window, in that order. |
| Servers.Server.ExpireSessions | src/server/server.c:393-401 | The loop frees exactly the idle sessions and lowers the gauge for each. |
| Servers.Server.ExpireConnections | src/server/server.c:1005-1011 | The swap-remove loop drops every overdue incoming connection. |
| Servers.Server.Stop | src/server/server.c:1047-1058 | The exit loops leave the shut-down state. |
| ClientSafety.ClientKeeps | src/client/client.c:338-503 | In every run of a session each open socket has one owner, nothing closes twice, gauges are exact, at most one live UDP session per identifier, each service within its limit. |
| ClientSafety.UnusedExists | src/client/client.c:82-119 | Below any allowed limit the session table has a free place. |
| ClientSafety.ClientRefsFit | src/client/client.c:302-306 | The client's event table is large enough. |
| ClientSafety.ExitLeavesNothing | src/client/client.c:504-519 | However the session went, its exit closes every socket once. |
| ClientOutcomes.FrameStartsIff | src/client/client.c:408-471 | A relay starts, between the connected local socket and this work connection, exactly when START was accepted, the service reached, a slot free and READY sent; otherwise the work connection closes and the local socket does not stay. |
| ClientOutcomes.SessionOpenedIff | src/client/client.c:80-119 | A session opens exactly for the first configured service of that name, if it is UDP, its limit is not reached by all sessions together, and a socket is to be had. |
| ClientOutcomes.ExpireCloses | src/client/client.c:187-192 | Exactly the overdue sessions are closed, each in its place. |
| ClientEffects.NewWorkOutcome | src/client/client.c:195-208 | A made work connection is kept exactly while the table has room. |
| ClientEffects.WorkFrameOutcome | src/client/client.c:408-471 | The connection leaves the idle table, and becomes a relay exactly if START, the service, a slot and READY all succeed; otherwise it and the local socket are closed. |
| ClientEffects.RelayDoneOutcome | src/client/client.c:484-488 | A closed relay frees its slot and its two sockets and nothing else. |
| ClientEffects.FromServerOutcome | src/client/client.c:121-162 | A datagram for a session refreshes it exactly if it passes every check and else leaves it; without one, a session opens exactly if it can; otherwise nothing changes. |
| ClientEffects.FromLocalOutcome | src/client/client.c:164-185 | A reply takes the session's next number and refreshes it. |
| ClientEffects.ExpireOutcome | src/client/client.c:187-192 | Exactly the sessions idle for too long are closed, and only they change. |
| Clients.Tunnel.AddWorkConnection | src/client/client.c:195-208 | An idle work connection is added within the table. |
| Clients.Tunnel.WorkArrives | src/client/client.c:408-471 | The connection leaves the idle table and ends in a relay or closed, with its local socket. |
| Clients.Tunnel.CreateUdp | src/client/client.c:80-119 | A session is opened within its service's limit, or its socket is closed again. |
| Clients.Tunnel.DatagramArrives | src/client/client.c:131-162 | A datagram finds or opens its session and is sent on exactly if it passes the checks in order. |
| Clients.Tunnel.ExpireUdp | src/client/client.c:187-192 | Exactly the idle sessions are closed. |
| Clients.Tunnel.Finish | src/client/client.c:504-519 | The exit loops reach the specified end state. |
| UdpTunnel.SolidAccept | src/server/server.c:217-234 | On an ordered channel the window accepts a number at most one above its mark exactly when it is above it. |
| UdpTunnel.CourseKeeps | src/server/server.c:325-401 | Over every course both tables and both logs agree on the source each identifier stands for and on the numbers used. |
| UdpDelivery.DatagramHandedOnIff | src/client/client.c:131-162 | A forwarded datagram reaches a local socket exactly when the client has or can open its session and it is not too long; identity and replay checks never refuse it, and the session is its source's. |
| UdpDelivery.ReplyForwardedIff | src/server/server.c:362-391 | A reply reaches its source exactly when the session is still there and its number is above all received before. |
| UdpDelivery.NoReplyRefusedIff | src/client/client.c:164-185 | Over any course every reply passes the replay check in its turn exactly if no reply is ever sent on a session just opened under an identifier replied under before. |
| UdpDelivery.ForwardedUnlessAfresh | src/server/server.c:362-391 | While the client never does that, a reply is forwarded exactly when the server still has its session. |
| UdpDelivery.DeliveredInOrder | src/server/server.c:325-401 | Each payload given to the socket of a client session was taken by the server from that session's service and source, each payload sent to a server session's source was read by the client from a session for that service and source, and none is reordered or repeated, whatever either end forgets. |
| UdpForgetting.ReplyCanBeRefused | src/client/client.c:187-192 | A concrete course within the configured limits ends with the server refusing a fresh reply of a session it still has. |

## Left out

- The handshake and the START/READY messages are modelled on values: their buffers and offsets being updated in place is not captured, nor are the deadlines of their reads and writes.
- The frame, string and datagram codecs build sequences with an explicit capacity instead of writing into a caller's buffer; overlap of buffers is not captured.
- Raw (unencrypted) relays: their work-side data bypasses the ring the read gate looks at (src/net/relay.c:148, src/net/relay.c:264), so the gating claims do not apply.
- `ct_relay_init` failing: it closes both sockets and so does its caller (src/net/relay.c:55, src/server/server.c:933); the ownership claims assume it succeeds.
- Read readiness that was not asked for (hangup or error from epoll): gating claims assume it is not delivered.
- Replay windows wider than 64: the bitmap has 64 bits, although Kconfig allows 128 (src/Kconfig:42-45).
- Socket, poll and name-resolution calls, readiness probes, deadlines: replaced by the outcomes they can have.
- Cryptographic primitives, random numbers and wiping: symbolic, with the ideal properties stated above.
- MAC and key-derivation scratch arrays: modelled as sequences without capacity; they fit the default identifier lengths only.
- Byte and AEAD-failure counters of the relay: pure statistics, read by nothing.
- The authentication rate table: it only delays handshakes; its effect is the `good` argument of an arriving frame.
- PROXY header version 1: text building by inet_ntop and snprintf.
- Configuration and authorization file parsing: validated limits and the access list are inputs.
- Pending-stream fairness: expiry swaps the last entry forward, so order is not kept.
- `getsockname` failing in the overlap test (src/net/net.c:399): the test then finds no overlap, so the separation of listeners assumes that it succeeds.
- The listener a server UDP session answers from: a session is known by service and source.
- SealedOnce.NothingSealedTwice: assumes that each run of one side has a transcript of its own, which its fresh random numbers give it, and that the server's identifiers have not wrapped around.
- HandshakeAgreement.ClientCompletes: assumes that the configured server key shares its fingerprint with no other key.
- Event entries that outlive their peer within one batch: the model serves an event only while its peer, service or slot exists; a control event for a peer closed earlier in the same batch is not modelled.
- Reconnection, logging, applets, build tooling: I/O or single-branch arithmetic.
- ServerSafety.IdsAreDistinct: nothing is claimed once 2^64 identifiers of one peer have been used up.
- RelayClose.CloseLosesNothing: both ends are assumed to be built with the same chunk size, since a larger one is refused by the receiver.
- RelayFinish.CanAlwaysComplete: assumes that neither end has used up its 2^64 sequence numbers and that both cut chunks of the same size.
- UdpDelivery.DatagramHandedOnIff: courses of fewer than 2^64 events, since sequence numbers wrap after that.
- ControlChannel.AcceptedIsPrefix: the prefix is of the calls that took a number; ControlChannel.PrefixOfAllCallsIff gives the exact condition for all calls.
- Time is a number in each event; the model does not require it to be monotone, which only admits more runs.
