# Verification of the niceperf measurement tools

The project models the parts of niceperf that carry state, interleaving or arithmetic of their own,
and proves what they keep over every run.

- **Latency handshake** (`Relay`, `ConnTypes`, `Handshake*`, `RunnerTurns`, `TestRunner`). A client and a server
  talk over an ordered control stream in each direction and over UDP, each through its own relay. The
  state machine in `Handshake.dfy` interleaves both runners, both relays, timeouts, control streams that close
  behind a side that failed, and a network that loses, copies and reorders datagrams. One inductive
  invariant (`HandshakeInvariant`) gives the safety results; `HandshakeLiveness` and `HandshakeFlow` say when the
  handshake can complete and when data can flow. `RunnerTurns.dfy` takes the same system apart into the turns of
  two runners and proves that their plays reach exactly the reachable states; `ConnTypes.dfy` and
  `TestRunner.dfy` hold the runners, relays and channels as objects that are updated in place, and run both of
  them over any script into a reachable state.
- **Running statistics** (`Statistics`): Welford's in-place update against the two-pass definitions.
- **Ping pipelines** (`LogTask`, `EchoClient`, `UdpPing`, `TcpPing`, `PingTasks`): send, receive and log
  tasks, a network, an echo server, over every interleaving. UDP is a bag, TCP two streams.
- **ICMP echo** (`IcmpWire`, `IcmpPing`, `IcmpClients`): bytes of the payload and of the message of
  RFC 792, "Echo or Echo Reply Message", and the checksum of section 1 of RFC 1071.

## Results that are not what one would expect

- *The handshake can get stuck for good.* `ConnRunner::run` matches `Ok(msg) = self.tx.recv()`. When the
  broadcast channel has overflowed, the next `recv` returns an error, the pattern does not match, and
  `select!` disables the branch until another branch fires: the relay sends nothing before a datagram
  arrives. A server without a peer never sends one. `CompletesUnlessStuck` gives the exact condition,
  `StuckIsReachable` a run that gets there, `PromptRunsCanComplete` what excludes it. The client then never
  leaves its loop, while the server gives up: `StuckForGood`, `StuckThoughPrompt`.
- *The test's data can stop flowing for good, with both sides ready.* In the same way two relays that have both
  overflowed wait for each other. `FlowsUnlessSilenced` gives the exact condition, counting what each relay
  needs to wake up, and `SilenceIsReachable` a run that gets there.
- *A timeout of one side can make the other panic.* A side that gave up drops its control streams. The
  `unwrap` of the server's write of its answer, and that of the client's first read, then meet a closed
  stream: `ClosedStreamIsMet`. `OnlyTimeoutsFail` and `FailsWithoutTimeoutIff` say that nothing else fails, given
  a configuration that `run` can use.
- *The client has no working handshake timeout.* Its 10 s sleep is made anew in each turn of the loop and
  the 100 ms tick ends every turn first. `ClientTimeoutIff` shows that it can fire only after a stall of
  the runner of more than 9900 ms; `ServerEndsInTime` that the server's does work, as its loop has one
  turn only; `SingleDeadlineBounds` that one sleep made before the client's loop would allow 101 handshakes.
- *The ICMP inter-arrival statistic is always zero.* The receive loop never stores the receive time in the
  result. `WhenInterArrivalIsRight` says for which arrivals zero is the right answer.
- *The ICMP length check is too weak*: lengths from 24 to 39 pass it and panic at the first ping: `IcmpPing.Run`.
- *Two ICMP clients with the same random identifier log each other's replies*: `ClientsSeparateIff`.

## Assumptions

- Two parties only; control messages of at most 1024 encoded bytes, and a `read` that never splits one
  written message. It may return several at once: the first is decoded and the others are lost.
- A side that fails drops both its control streams. The other side learns of it at some later moment; by then
  any part of what it has not read may be lost. A write fails from that moment on; a read fails once nothing
  is left to read.
- A datagram holds at most 65507 bytes of data, as over IPv4.
- `bincode` is an injective encoding; test data does not decode to a handshake.
- The capacity of the broadcast channel is a parameter, any positive number, as the channel library may
  round the requested 10 up. The mpsc channels hold 10 and 10000 messages.
- `f64` is `real`; 64-bit counters do not wrap; clocks are monotone.
- An unsigned subtraction below zero ends the task it happens in, as it does with overflow checks on.

## Model

| member | source | states |
|---|---|---|
| Statistics.RefinesTwoPass | common/src/lib.rs:656-672 | after any history, the fields are the count, the mean, the sum of squared deviations from the final mean, the least and the greatest sample |
| Statistics.WelfordStep | common/src/lib.rs:665-669 | one update turns the two-pass mean and squared deviation of a history into those of the history with one more sample |
| Statistics.OrderDoesNotMatter | common/src/lib.rs:656-672 | histories with the same samples in any order leave the same record |
| Statistics.ExtremesBound | common/src/lib.rs:670-671 | minimum and maximum are attained and bound every sample |
| Statistics.VarianceIsTwoPass | common/src/lib.rs:638-640 | `variance()` times the number of samples is the sum of squared deviations from the mean |
| Statistics.ShapeOfStatistics | common/src/lib.rs:635-672 | min <= mean <= max; `variance()` is zero iff all samples are equal, and at most (max-mean)(mean-min), itself at most (max-min)^2/4 |
| Statistics.RunningStatistics.constructor | common/src/lib.rs:624-633 | a new object describes the empty history |
| Statistics.RunningStatistics.Update | common/src/lib.rs:656-672 | the in-place update leaves the record that describes the old history with the new sample added |
| LogTask.LogRunLogs | ping/src/udp.rs:180-218 | the log loop gets through exactly the results whose receive times do not decrease, and has then fed every round trip and every truncated gap |
| LogTask.LoggedValues | ping/src/udp.rs:181-189 | one by one, the samples are the round trips in order, and the gaps between neighbouring receive times in whole milliseconds |
| LogTask.LogLoop.Log | ping/src/udp.rs:181-189 | one turn takes the model's step, or fails at a negative time difference and changes nothing |
| LogTask.LogLoop.Drain | ping/src/udp.rs:177-220 | the loop over a channel's contents ends in the state of the model's run, and fails iff that run fails |
| LogTask.InterArrivalBound | ping/src/udp.rs:181-189 | with k results, k-1 gaps whose mean times k-1 is at most the time from first to last arrival in ms, and less than k-1 ms below it |
| EchoClient.LocalKeepsInv | ping/src/udp.rs:136-220 | every step of the send and log tasks keeps numbering, queue order and sorted arrivals, and no subtraction underflows |
| EchoClient.ReceiveKeepsInv | ping/src/udp.rs:222-243 | receiving an echo of a packet that was sent keeps the client's invariant and never makes the round trip negative |
| EchoClient.ResultFields | ping/src/udp.rs:232-240 | a result carries number, both stamps and time of arrival, and the milliseconds from send stamp to arrival; there is one unless the packet is stamped later |
| EchoClient.ReceiverWaitsForRoom | ping/src/udp.rs:175-177 | the channel takes results until it holds 10000; the receive task reads no packet while it waits for room |
| EchoClient.SamplesOfClient | ping/src/udp.rs:177-218 | the statistics have been given the round trip of every logged result and every gap, one by one |
| EchoClient.RoundTripOfClient | ping/src/udp.rs:189 | the round-trip statistic has the mean and the extremes of the logged round trips |
| EchoClient.InterArrivalOfClient | ping/src/udp.rs:181-188 | the inter-arrival statistic has one sample fewer, and agrees with the first and last receive times up to a millisecond a sample |
| UdpPing.LoggedResultsAreGenuine | ping/src/udp.rs:145-243 | in every run over a lossy, reordering, duplicating network the packets sent have the client's identifier and length and are numbered in order, each stamped between the sending of the packet before and its own; each logged result carries number and send time of a packet sent, a stamp the server gave that packet, and the round trip from its send time to its arrival; no subtraction underflows |
| UdpPing.OutsideInventsNothing | ping/src/udp.rs:305-361 | whichever loop of the server echoes, a reply is a request with only the receive stamp changed |
| UdpPing.CountersAgree | ping/src/udp.rs:136-155 | without duplication no number is logged twice, the log is at most one ahead of the send counter, and after a normal end the numbers sent are 0..n-1 and n minus the receive counter is exactly lost + in the network + waiting in the client |
| UdpPing.CanFinish | ping/src/udp.rs:131-263 | from every state of every run with a count, the test can still end without a further loss, everything under way being logged and counted |
| UdpPing.HandlersAreSpawned | ping/src/udp.rs:305-340 | there is one per-client echo loop for every packet the main loop echoed, less those that timed out |
| UdpPing.RoundTripOfRun | ping/src/udp.rs:177-218 | in every run both statistics have been given exactly the logged results' round trips and gaps |
| UdpPing.InterArrivalOfRun | ping/src/udp.rs:177-218 | in every run the inter-arrival statistic agrees with the first and last logged receive times up to a millisecond a gap |
| TcpPing.LoggedIsPrefixOfSent | ping/src/tcp.rs:133-251 | in every run the packets sent are numbered in order, and the logged results are the first of them, with their send times, round trips and server stamps; the rest is queued or in flight; the handler has one sample fewer than frames |
| TcpPing.HandlerSamplesOfRun | ping/src/tcp.rs:339-345 | each sample of the handler is the whole milliseconds between two neighbouring frames |
| TcpPing.CanFinish | ping/src/tcp.rs:128-268 | from every state of every run with a count, the test can still end with every packet sent, echoed, logged and counted |
| TcpPing.RoundTripOfRun | ping/src/tcp.rs:180-222 | in every run both statistics have been given exactly the logged results' round trips and gaps |
| TcpPing.InterArrivalOfRun | ping/src/tcp.rs:180-222 | the same bound on the inter-arrival statistic for the TCP client |
| PingTasks.SendTask | ping/src/udp.rs:136-155 | the packets are numbered 0, 1, .. with their own clock readings, and the loop ends at the configured count |
| PingTasks.ReceiveTask | ping/src/udp.rs:222-244 | one result for each packet, in order through the bounded channel, until the first read that fails or has a packet stamped later than its arrival, and no other |
| PingTasks.ClientHandler | ping/src/tcp.rs:329-367 | every frame is echoed with only its stamp changed, and sample i is the whole milliseconds from frame i to the next |
| IcmpWire.BigEndianRoundTrip | ping/src/icmp.rs:141-143 | decoding the big-endian bytes of a number that fits gives it back |
| IcmpWire.FromBeByPlace | ping/src/icmp.rs:255-261 | the first byte counts most: it is worth 256 to the number of bytes behind it |
| IcmpWire.WordSumByWords | ping/src/icmp.rs:146-153 | the checksum goes by 16-bit words, high byte first, an odd length padded with zero |
| IcmpWire.VerifiesIff | ping/src/icmp.rs:146-153 | a message verifies iff its 16-bit words add up to a nonzero multiple of 65535 |
| IcmpWire.MessageVerifies | ping/src/icmp.rs:144-158 | the assembled message has one's-complement sum 0xFFFF for every data of odd or even length |
| IcmpPing.CopyInto | ping/src/icmp.rs:141-143 | the range is replaced and nothing else, or the range does not fit and nothing changes |
| IcmpPing.FillPayload | ping/src/icmp.rs:141-143 | both fields are written in front of the unchanged rest iff the payload has 32 bytes |
| IcmpPing.SendTask | ping/src/icmp.rs:120-165 | ping i carries clock reading i and counter i, up to the count; it panics at the first ping iff the payload is shorter than 32 bytes |
| IcmpPing.PingLayout | ping/src/icmp.rs:141-158 | type 8, code 0, identifier, counter modulo 65536, stamp and counter in big-endian order, then the rest of the payload, each at its place |
| IcmpPing.ReceiveVerdict | ping/src/icmp.rs:236-261 | a message is skipped iff it is not an echo reply or has another identifier; a short read, a short payload and a stamp from the future end the task; and everything else is logged |
| IcmpPing.LoggedFields | ping/src/icmp.rs:254-268 | the logged result has the header number, both 128-bit fields, the time to live, and the round trip in milliseconds |
| IcmpPing.OwnRequestIsSkipped | ping/src/icmp.rs:248-251 | a client that reads its own request does not log it |
| IcmpPing.ReceiveTask | ping/src/icmp.rs:229-271 | the results are those of the own replies read, in order, up to the first read that ends the loop |
| IcmpPing.PingRoundTrip | ping/src/icmp.rs:141-158 | decoding the reply to a ping gives back its 128-bit stamp and counter and the counter modulo 65536, or skips it if the identifier is another's |
| IcmpPing.HeaderNumberWraps | ping/src/icmp.rs:147-150 | two counters share a header number iff they differ by a multiple of 65536 |
| IcmpPing.Run | ping/src/icmp.rs:101-165 | from the configured length to the end of the send task: the packets sent, and that it panics iff the length is from 24 to 39 and a ping is due |
| IcmpPing.IcmpInterArrivalIsZero | ping/src/icmp.rs:187-196 | whatever arrives, the log loop does not fail and its inter-arrival statistic is zero in every field |
| IcmpPing.WhenInterArrivalIsRight | ping/src/icmp.rs:230-269 | the logged gaps are those between the clock readings of the logged reads iff each of these is under a millisecond |
| IcmpClients.ClientsSeparateIff | ping/src/icmp.rs:238-252 | two clients that see all replies log only their own pings, with the round trip from sending to reading, in every interleaving iff their identifiers differ |
| IcmpClients.SharedIdentifierMixes | ping/src/icmp.rs:61-62 | with equal identifiers there is a run in which a client logs a reply to the other's ping |
| Relay.RelayConserves | latency/src/conn_types.rs:65-84 | over every sequence of operations, received messages are a gapless prefix of those accepted, and emitted ones an in-order subsequence of those given, short by exactly the overwritten and the unread |
| Relay.PeerLocksIn | latency/src/conn_types.rs:142-153 | the peer never changes once set, every accepted datagram came from it, and the relay ends over a wrong sender iff it is handed a datagram from anyone else |
| Relay.RecoversFromLag | latency/src/conn_types.rs:69-78 | after an overflow the relay is deaf until a datagram arrives, and then goes on with the oldest message left |
| Relay.StopsOnceClosed | latency/src/conn_types.rs:79-81 | once the context is dropped, a waiting relay can end, deaf or not |
| Relay.PushesIntoRoom | latency/src/test_runner.rs:81 | the channel towards the runner takes ten messages |
| ConnTypes.UdpLatency.Recv | latency/src/conn_types.rs:142-153 | the first sender becomes the peer; another sender is refused and the peer kept |
| ConnTypes.ConnRunner.OnBroadcast | latency/src/conn_types.rs:71-73 | the broadcast branch sends the oldest unread message to the peer; it ends the relay without a peer or over too much data, and is disabled after a lag |
| ConnTypes.ConnRunner.OnSocket | latency/src/conn_types.rs:74-76 | the socket branch accepts a datagram of the peer or ends the relay |
| ConnTypes.ConnRunner.OnRoom | latency/src/conn_types.rs:77-78 | the pending message joins the end of the channel, or the relay ends when its receiver is gone |
| ConnTypes.ConnRunner.OnStop | latency/src/conn_types.rs:79-81 | once the context is gone the relay may end, its queues left as they were |
| ConnTypes.ConnRunner.Run | latency/src/conn_types.rs:65-84 | the loop takes exactly the offered steps that are ready, and sends exactly what the model emits, from its own address to its peer |
| ConnTypes.ConnCtx.Send | latency/src/conn_types.rs:24-27 | the message joins the broadcast channel, overwriting the oldest when full; error iff there is no receiver |
| ConnTypes.ConnCtx.Recv | latency/src/conn_types.rs:29-35 | the oldest queued message is taken; of an empty channel, the call waits while the relay lives, and fails once it has ended |
| HandshakeInvariant.DoKeeps | latency/src/test_runner.rs:51-300 | every step of the system keeps the invariant |
| HandshakeSafety.OnlyTimeoutsFail | latency/src/test_runner.rs:51-260 | in every reachable state a side has failed only by its timeout, at a stream closed by the other side after that one's timeout, or over a configuration that cannot be used; a relay has ended only after its own side failed, or over data that fits no datagram |
| HandshakeSafety.FailsWithoutTimeoutIff | latency/src/test_runner.rs:267-281 | a run without timeouts can fail iff interval or length is missing, the interval is zero, or the length exceeds 65507 |
| HandshakeSafety.ClosedStreamIsMet | latency/src/test_runner.rs:68-231 | each side can fail at a stream that the other has closed: the server at the write of its answer, the client at its first read |
| HandshakeSafety.OnlyHandshakesReachTheLoop | latency/src/test_runner.rs:219-239 | until the server has answered, everything on its way to it is the handshake of this client; taking it makes the server answer it and become ready, or fail iff the client, having timed out, has closed the stream |
| HandshakeSafety.ReadyMeansAgreement | latency/src/test_runner.rs:201-209 | when the client is ready the server has written exactly the client's test and its handshake and has been ready, and still is if the configuration is usable; both hold the client's configuration, and each relay's peer is the other's address |
| HandshakeSafety.PeerIsSetBeforeSending | latency/src/conn_types.rs:137-138 | the server's relay has the client as peer whenever there is something to send |
| HandshakeSafety.OneMessagePerRead | latency/src/test_runner.rs:66-70 | each control stream holds at most one message, so a read returns exactly one |
| HandshakeSafety.HandleMsgIsNeverCalled | latency/src/test_runner.rs:283-286 | in no reachable state is there a control message for a runner in `run`, on either side |
| HandshakeSafety.ReadyIsQuiet | latency/src/test_runner.rs:264-300 | once the client is ready, in every continuation the control streams stay empty, and both sides stay ready or fail only as an unusable configuration makes them |
| HandshakeRelays.StepMovesLinks | latency/src/test_runner.rs:191-299 | every step of the system moves each side's connection by exactly the relay operations that the source performs there |
| HandshakeRelays.RelaysConserveInEveryRun | latency/src/conn_types.rs:65-84 | the conservation of a relay holds for both relays in every reachable state of the whole system |
| HandshakeData.RunTickGivesData | latency/src/test_runner.rs:279-282 | in every reachable state a tick in `run` gives data of the configured length to the relay, or fails if the relay has ended |
| HandshakeData.GivenIsHandshakesThenData | latency/src/test_runner.rs:193-282 | everything a side has ever given is some of the client's handshakes, none on the server's side, and then data of the configured length, none before it was ready |
| HandshakeData.OnlyDataOnceReady | latency/src/test_runner.rs:276-282 | in every continuation a side that is ready gives only data of the configured length |
| HandshakeData.LoopTickGivesHandshake | latency/src/test_runner.rs:193-196 | a tick in the client's loop gives its handshake |
| HandshakeData.RunTakesFromRelay | latency/src/test_runner.rs:287-289 | a ready runner can take exactly when something is queued, and takes the oldest |
| HandshakePhases.ReplyVerdict | latency/src/test_runner.rs:72-120 | the client goes on with a reply iff it is a UDP test, and talks to the address in it |
| HandshakePhases.FirstVerdict | latency/src/test_runner.rs:130-177 | the server answers exactly a test, with that test |
| HandshakePhases.LoopVerdict | latency/src/test_runner.rs:205-214 | the client becomes ready iff the handshake has its own id, ignores a foreign one, and fails at anything else |
| HandshakePhases.DatagramVerdict | latency/src/test_runner.rs:222-239 | the server becomes ready iff it takes a handshake it can answer |
| HandshakeLiveness.CompletesUnlessStuck | latency/src/test_runner.rs:183-246 | from a reachable state in which no side has failed the handshake can complete iff it is not stuck, and then within eleven steps |
| HandshakeLiveness.NextGetsCloser | latency/src/test_runner.rs:51-246 | outside stuck and completed states there is a step that lowers the rank and leads to no failure and no stuck state |
| HandshakeLiveness.SilentForever | latency/src/conn_types.rs:69-78 | a muted client relay with no handshake under way stays so in every continuation |
| HandshakeLiveness.PromptRunsCanComplete | latency/src/test_runner.rs:188-217 | if no handshake is ever overwritten in the client's channel, every reachable state in which no side has failed can complete |
| HandshakeLiveness.StuckIsReachable | latency/src/conn_types.rs:71-73 | for every capacity there is a run, without timeouts, to a state that cannot complete |
| HandshakeFlow.FlowsUnlessSilenced | latency/src/conn_types.rs:69-78 | once the client is ready, either side can send further data, without duplication by the network, iff not both relays need more to wake up than is on its way; and then within twenty-two steps |
| HandshakeFlow.SilencedForever | latency/src/conn_types.rs:69-78 | otherwise nothing is sent in any continuation |
| HandshakeFlow.SilenceIsReachable | latency/src/conn_types.rs:71-73 | a run leads to that with both sides ready |
| HandshakeTimers.ClientTimeoutIff | latency/src/test_runner.rs:181-217 | whatever it is sent, the client's timeout is taken in some run iff the runner can be left unpolled for more than 9900 ms |
| HandshakeTimers.ClientNeverGivesUp | latency/src/test_runner.rs:187-199 | for every n there is a promptly polled run with n handshakes, 100 ms apart, that is still in the loop |
| HandshakeTimers.TicksKeepSchedule | latency/src/test_runner.rs:187-196 | tick k is due 100 k ms after the first however late it is polled, and each gives one handshake |
| HandshakeTimers.ServerEndsInTime | latency/src/test_runner.rs:219-244 | in a loop that would make its sleep anew each turn, the server has one turn: while it goes on it has taken nothing and less than 10 s have passed, and it times out not before 10 s and ends within 10 s and one gap between polls |
| HandshakeTimers.SingleDeadlineBounds | latency/src/test_runner.rs:181-200 | with one sleep made before the loop, a client polled every 100 ms can give k handshakes iff k is at most 101 |
| HandshakeTimed.StuckForGood | latency/src/test_runner.rs:183-246 | from a stuck state on, with the runners polled at least every 9900 ms, the client stays in its loop for ever, and the server has given up iff it was polled 10 s or more after entering its own |
| HandshakeTimed.ServerGivesUp | latency/src/test_runner.rs:240-242 | from every stuck state there is such a continuation in which the server has given up |
| HandshakeTimed.StuckThoughPrompt | latency/src/conn_types.rs:71-73 | with both runners polled every 100 ms there is a run that ends that way |
| RunnerTurns.TurnIsTheStep | latency/src/test_runner.rs:51-300 | every turn of a runner, in `setup`, its loops and `run`, or of its relay, is a step of the state machine: same state, output and datagram |
| RunnerTurns.StepIsATurn | latency/src/test_runner.rs:51-300 | every step of the state machine but those of the network and the closing of streams is such a turn |
| RunnerTurns.PlaysReachTheSameStates | latency/src/main.rs:82-176 | two runners taking turns between streams and network reach exactly the reachable states |
| RunnerTurns.ServerLoopTakesOne | latency/src/test_runner.rs:219-245 | the server's loop takes at most one message and is ready iff it has written its one answer, to that message |
| RunnerTurns.LoopSendsWhatIsEmitted | latency/src/conn_types.rs:71-73 | what a loop sends over any script is what its relay emits, in order |
| TestRunnerObject.TestRunner.Greet | latency/src/test_runner.rs:56-64 | the client's first write, or its failure on a closed stream |
| TestRunnerObject.TestRunner.ConnectClient | latency/src/test_runner.rs:72-120 | the client's first half of setup takes the model's step for every reply, error replies included |
| TestRunnerObject.TestRunner.AcceptTest | latency/src/test_runner.rs:130-136 | the server stores the configuration and answers, or fails, as the model does |
| TestRunnerObject.TestRunner.BindSocket | latency/src/test_runner.rs:138-167 | the server connects only after that |
| TestRunnerObject.TestRunner.MakeReady | latency/src/test_runner.rs:248-259 | the runner becomes ready iff configuration and context are set |
| TestRunnerObject.TestRunner.OnCtrl | latency/src/test_runner.rs:201-215 | a control message ends the client's loop, is ignored for a foreign id, or fails it |
| TestRunnerObject.TestRunner.OnDatagram | latency/src/test_runner.rs:222-239 | the server's loop answers a handshake and ends, or fails, at a closed stream too |
| TestRunnerObject.TestRunner.Take | latency/src/test_runner.rs:51-300 | any turn of the object is the turn of its abstraction, with what it writes and sends |
| TestRunnerObject.TestRunner.RunLoop | latency/src/test_runner.rs:191-245 | a loop over any script of outcomes takes the model's turns until the phase changes, and writes and sends what they do |
| TestRunnerObject.Run | latency/src/main.rs:82-176 | both objects over any script of moves end in the state that the play of the possible moves reaches, a reachable one |

## Left out

- `ConnCtx::stop`, the stop channels and Ctrl-C: no run is stopped from outside; a side that failed drops its context, and its relay may then end.
- TCP and QUIC latency modes: `todo!()` in the source, modelled as failures only.
- Socket errors other than that of a datagram that is too long: in the ping clients a failed `read` and the end of the TCP stream end the receive task, and the client then panics (ping/src/udp.rs:257, ping/src/tcp.rs:263); PingTasks.ReceiveTask has them, the state machines of the ping do not.
- Socket creation and options, `tcp_info`, TLS and certificates, CLI parsing, the CSV logger, plotting and namespace scripts, the throughput and XDPing stubs: no state of their own.
- ICMP messages other than echo that the header parser refuses for their length: they are skipped, where the source ends the receive task.
- IPv4 headers with options: the source takes 20 bytes.
- Result fields that are copied through: packet size of UDP and TCP results, congestion control name, retransmissions, address strings.
- `standard_deviation` and NaN before the first sample: the fields of a fresh record are unspecified.
- The wrap of the 64-bit counters and of the 128-bit clock, and the restart of the inter-arrival log at a wrapped receive counter.
- Preload, duration and the unused timers of the ping clients.
- The periodic printing of the statistics.
- The end of a per-client UDP echo loop after ten silent seconds is a free step, not timed.
- TestRunnerObject.Run: the network and the scheduler act through the script, one event at a time.
