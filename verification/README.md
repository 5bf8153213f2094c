# Mactainer: forwarding proxies and machine store

This project models the two stateful parts of Mactainer and proves what they keep over every schedule,
every failure and every crash point.

**The forwarding proxies** (`mct/cmd/mct-docker-proxy`). The UDP proxy is a state machine over atomic
steps (`UdpProtocol`): one `Run` goroutine, one reply loop for every connection ever dialled and one
caller of `Close` share the connection-tracking table under a mutex, while an environment delivers
replies, refused-connection errors and clock ticks. What the code does not decide (which datagram
arrives, how much a write takes, whether a call fails, who is scheduled) is part of the action, so a
statement about all runs is one about all schedules and environments. `UdpInvariant` holds the inductive
invariant; `UdpHistory` ties the histories in the state to the actions of a run; `UdpSafety`, `UdpRelay`,
`UdpDelivery`, `UdpIsolation`, `UdpDrain` and `UdpExpiry` hold what follows from these, and `UdpWindows`,
`UdpRefill` and `UdpStarvation` the runs that show their exceptions to be real. `UdpProxy` is the
shared object, whose methods are proved to take exactly those steps; its `Execute` ties every schedule
of the object to a run. The TCP and SCTP client loops share one state machine
(`StreamLoop`), parameterised by whether a broker half-closes or closes its two connections;
`StreamHistory`, `StreamSafety`, `StreamOutcome`, `SctpOutcome` and `StreamDrain` hold the theorems,
`StreamForever` fair executions to which they apply, `ClientLoop` the object, and `StreamServer` puts
any number of loops beside the `Run` that starts them and tells them to quit. `Executions` defines
infinite executions and weak fairness for all of these. `PortExpose` is the exposure of TCP ports on the gateway.

**The machine store** (`mct/pkg/libmachine`, `mct/cmd/mct/cmd`). `SaveToFile` gives every state of a
machine's directory while its configuration is replaced; `HostDoc` the document a host is encoded to and
decoded from, `HostFields` where each field of a loaded host comes from, and `HostObject` the host and
driver objects that loading fills and updating changes in place; `FileStore` is the store object, which
records every state of the disk; `StoreRefinement` the map it refines. `Lifecycle` follows the existence marker and the configuration over histories of `run`
and `stop`, `StopSequence` the questions and actions of `stop` and `kill`, and `Commands` runs both
commands on the store object and proves that they do what `Lifecycle` and `StopSequence` say.
`RunContents` says what `run` saves and when it succeeds, without reference to how it goes about it, and
`StuckMachine` is about configurations that are there but of no use.

Nine properties that one might expect are false of the code. Each has its exact condition, proved in
both directions:

- a tracking key identifies a client, except across address lengths (`ConnTrack.CrossFamilyCollision`);
- after `Close` the UDP proxy drains under every fair schedule, unless loops go on reading replies of
  length zero forever (`UdpDrain.FairSchedulesDrain`, with `UdpRefill.EmptyRepliesKeepLoopAlive`);
- while the proxy runs, a flow whose deadline passes without a reply ends, unless its loop waits for the
  lock forever (`UdpExpiry.IdleFlowExpiresExactly`). A mutex that goes to whoever comes first allows that
  (`UdpStarvation.UnfairMutexStarvesLoop`); one that is fair to its waiters does not
  (`UdpExpiry.IdleFlowExpires`);
- an SCTP loop delivers both directions, unless one still owes bytes when the other direction's copy ends
  (`SctpOutcome.BothDeliveredExactly`, and `SctpOutcome.FirstCloseDecides` for single runs);
- the gateway's ports are those of the live proxies, unless an IPv6 proxy stops on the port of a live
  IPv4 one, an unexpose request is lost, or the answer to an applied expose is lost
  (`PortExpose.HistoryConsistent`);
- overwriting a configuration is crash safe, except for a failed rename whose clean-up succeeds
  (`SaveToFile.OverwriteCrashSafety`);
- marker and configuration agree between commands, unless a failure separates them
  (`Lifecycle.HistoryMatched`);
- a machine that was stopped counts as stopped once Stopped has been seen, unless it was only the check
  before the kill that saw it (`StopSequence.StoppedExactly`, `StopSequence.LateStopIsAnError`);
- a machine that is marked as existing can be loaded after `run`, except after the failed writes of
  `StuckMachine.RunLeavesStuckExactly`, and after an interrupted `run` except in the cases of
  `StuckMachine.InterruptedRunCanStick`, at the crash points of `StuckMachine.RunSticksExactly`.

`UDPConnTrackTimeout` is taken from the code, ninety seconds. The comment above the refused-connection
branch says that the loop continues until the timeout expires; the code does that only because the
deadline is armed before the label it jumps to, and `UdpSafety.ClientTrafficNeverExtendsFlow` states it
that way. The `Close` comment "stops forwarding the traffic" is met only in the sense of
`UdpSafety.CloseLeavesOnlyLateDial` and `UdpDrain.FairSchedulesDrain`: one connection can still be
dialled, and forwarding ends some time after `Close` has returned.

## Model

| member | source | states |
|---|---|---|
| `ConnTrack.KeyFitsUint64` | mct/cmd/mct-docker-proxy/udp_proxy.go:38-57 | Both address halves of a tracking key fit the unsigned 64-bit fields they are kept in. |
| `ConnTrack.BigEndianRoundTrip` | mct/cmd/mct-docker-proxy/udp_proxy.go:48-54 | Big-endian decoding of a byte string is below the matching power of 256 and can be turned back into the same bytes. |
| `ConnTrack.ToBytesRoundTrip` | mct/cmd/mct-docker-proxy/udp_proxy.go:48-54 | Every number that fits a width is the decoding of its bytes at that width. |
| `ConnTrack.KeyInvertible` | mct/cmd/mct-docker-proxy/udp_proxy.go:44-57 | Within one address length the key gives the address and port back. |
| `ConnTrack.SameFamilyKeysAreInjective` | mct/cmd/mct-docker-proxy/udp_proxy.go:44-57 | On a listener of one address family two clients share a key exactly if they are the same client. |
| `ConnTrack.CrossFamilyCollision` | mct/cmd/mct-docker-proxy/udp_proxy.go:44-57 | A 4-byte and a 16-byte address share a key exactly if the ports match and the long one is twelve zero bytes and the short one (section 2.5.5.1 of RFC 4291). |
| `UdpInvariant.StepKeepsInv` | mct/cmd/mct-docker-proxy/udp_proxy.go:91-173 | Every step of `Run`, any reply loop, `Close` or the environment keeps the invariant: table and live loops match, mutual exclusion, which connections are open, at most one late dial, the newest connection of a client is its live one, deadline bookkeeping. |
| `UdpInvariant.RunsKeepInv` | mct/cmd/mct-docker-proxy/udp_proxy.go:91-173 | The invariant holds in every state of every run under every schedule. |
| `UdpHistory.ReceivedIsWhatArrived` | mct/cmd/mct-docker-proxy/udp_proxy.go:129-140 | In every run what `Run` has received is, in order, every datagram that arrived, whole and with the key of its sender. |
| `UdpHistory.ReadsAreFaithful` | mct/cmd/mct-docker-proxy/udp_proxy.go:103-114 | In every run what a loop has read, followed by what it has not, is exactly what the backend delivered on its connection, and its replies are the replies read, each whole. |
| `UdpHistory.EveryDatagramIsTracked` | mct/cmd/mct-docker-proxy/udp_proxy.go:140-154 | Unless the dial fails, the sender of every datagram that arrives, an empty one included, gets an entry before `Run` is ready for the next. |
| `UdpHistory.LoopLeavesExactlyOnFailure` | mct/cmd/mct-docker-proxy/udp_proxy.go:103-119 | A reply loop is past its loop exactly if one of its reads or answers has failed, whether the listener is open or not; a refused read is not such a failure. |
| `UdpHistory.RunStopsExactlyOnFailure` | mct/cmd/mct-docker-proxy/udp_proxy.go:129-138 | `Run` has stopped exactly if a receive has failed. |
| `UdpHistory.CloseFollowsItsSteps` | mct/cmd/mct-docker-proxy/udp_proxy.go:166-173 | The listener is closed exactly if `Close` has closed it, and `Close` has returned exactly if it has swept the table and released the lock. |
| `UdpHistory.FailureCostsOneDatagram` | mct/cmd/mct-docker-proxy/udp_proxy.go:144-159 | A failing dial or write costs the datagram in hand and leaves `Run` ready for the next, with table and connections as they were. |
| `UdpSafety.TableBijection` | mct/cmd/mct-docker-proxy/udp_proxy.go:91-97 | In every reachable state table entries and reply loops that have not yet deleted are in bijection, key by key, the connection between its dial and its insertion aside. |
| `UdpSafety.DeleteRemovesOwnEntry` | mct/cmd/mct-docker-proxy/udp_proxy.go:92-97 | A reply loop's delete removes the entry of its own connection, never that of a successor, and no other entry. |
| `UdpSafety.NoRedialWhilePresent` | mct/cmd/mct-docker-proxy/udp_proxy.go:141-152 | A client is dialled only while it has neither an entry nor a live connection. |
| `UdpSafety.TableOpenUntilClose` | mct/cmd/mct-docker-proxy/udp_proxy.go:140-163 | Until `Close` is called every connection in the table is open. |
| `UdpSafety.WriteToRetiredConnection` | mct/cmd/mct-docker-proxy/udp_proxy.go:142-162 | Until `Close` is called, `Run` holds a closed connection only if its reply loop has retired it; no later lookup returns that connection, so only the datagram in hand is lost. |
| `UdpSafety.OneDialAfterClose` | mct/cmd/mct-docker-proxy/udp_proxy.go:126-153 | At most one backend connection is dialled after the listener has been closed. |
| `UdpSafety.LateConnWasDialledLate` | mct/cmd/mct-docker-proxy/udp_proxy.go:129-152 | A connection marked as late was made by a dial that took place after the listener had been closed. |
| `UdpSafety.CloseLeavesOnlyLateDial` | mct/cmd/mct-docker-proxy/udp_proxy.go:166-173 | Once `Close` has returned, an open connection in the table can only be the one dialled after the listener was closed. |
| `UdpSafety.EndedMeansReleased` | mct/cmd/mct-docker-proxy/udp_proxy.go:91-173 | When `Run` and all reply loops have ended the table is empty and every connection ever dialled is closed. |
| `UdpSafety.DeadlineIsLastArming` | mct/cmd/mct-docker-proxy/udp_proxy.go:29-34 | A waiting loop's deadline is its last arming plus ninety seconds, and it has been armed once at its start and once per fully processed reply. |
| `UdpSafety.ClientTrafficNeverExtendsFlow` | mct/cmd/mct-docker-proxy/udp_proxy.go:100-114 | Between two waits without a reply in between, any number of client datagrams and refused reads leave the deadline unchanged, and once it has passed nothing more is read. |
| `UdpRelay.RunKeepsRelay` | mct/cmd/mct-docker-proxy/udp_proxy.go:91-163 | In every run what was written for a client, with what its goroutine still holds, is a selection in order of what was read for it, in both directions. |
| `Subsequence.SubsequenceMeaning` | mct/cmd/mct-docker-proxy/udp_proxy.go:91-163 | The selections spoken of here pick increasing positions: in order, and each element at most once. |
| `UdpRelay.RelaysBytes` | mct/cmd/mct-docker-proxy/udp_proxy.go:115-161 | Whatever the writes accept, the bytes sent for a client are an ordered selection without duplicates of the bytes that arrived from it, and those sent to it of the replies delivered on its connections and read, over all generations of these. |
| `UdpRelay.RelaysDatagrams` | mct/cmd/mct-docker-proxy/udp_proxy.go:91-163 | With all-or-nothing writes the backend receives an ordered subsequence of the non-empty datagrams that arrived from the client, and the client one of the replies delivered on its own connections and read: nothing cut, split, merged, reordered, repeated or misdirected. |
| `UdpDelivery.NoRequestIsLost` | mct/cmd/mct-docker-proxy/udp_proxy.go:143-161 | Without a failing dial or write, every byte that arrived from a client has been forwarded whenever `Run` is between datagrams. |
| `UdpDelivery.EveryDatagramArrives` | mct/cmd/mct-docker-proxy/udp_proxy.go:143-161 | If moreover every write is all or nothing, the backend has got exactly the non-empty datagrams that arrived from the client, whole and in order. |
| `UdpDelivery.NoReplyIsLost` | mct/cmd/mct-docker-proxy/udp_proxy.go:99-122 | Without a failing write, every byte of the replies delivered on a client's connections and read has been written to it whenever none of its loops holds a reply. |
| `UdpIsolation.ClientsAreIsolated` | mct/cmd/mct-docker-proxy/udp_proxy.go:73-82 | On a listener of one address family a datagram goes out only on a connection dialled for its sender, a reply returns only to the client its connection was dialled for, and per-key traffic is per-client traffic. |
| `UdpWindows.CloseCanMissADial` | mct/cmd/mct-docker-proxy/udp_proxy.go:129-152 | There is a run in which `Close` has returned and the table holds an open connection, dialled after the listener was closed. |
| `UdpWindows.OldSocketCanOutliveRedial` | mct/cmd/mct-docker-proxy/udp_proxy.go:92-97 | There is a run in which a client has been dialled again while its previous connection is still open. |
| `UdpWindows.LookupCanGoStale` | mct/cmd/mct-docker-proxy/udp_proxy.go:153-155 | There is a run in which, before any `Close`, `Run` is about to write to a connection that was closed since the lookup. |
| `UdpDrain.UsefulStepDecreases` | mct/cmd/mct-docker-proxy/udp_proxy.go:91-173 | After the listener is closed every step of a goroutine but a read of nothing, and every tick towards a pending deadline, decreases one measure, which only a read of a reply of length zero can increase. |
| `UdpDrain.SomeUsefulStep` | mct/cmd/mct-docker-proxy/udp_proxy.go:91-173 | Until everything has ended such a step is possible without a spontaneous failure. |
| `UdpDrain.SomeoneCanStep` | mct/cmd/mct-docker-proxy/udp_proxy.go:91-173 | Once no loop waits for a deadline, some goroutine can go on until everything has ended: nobody is ever stuck on the lock. |
| `UdpDrain.CanStepMeansEnabled` | mct/cmd/mct-docker-proxy/udp_proxy.go:91-173 | A goroutine that fairness obliges to go on has an enabled step that is not a spontaneous failure. |
| `UdpDrain.UsefulStepsGoOn` | mct/cmd/mct-docker-proxy/udp_proxy.go:91-173 | Weak fairness of every goroutine and passing time suffice for useful steps to keep being taken until everything has ended. |
| `UdpDrain.MeasureShrinks` | mct/cmd/mct-docker-proxy/udp_proxy.go:91-173 | Once `Close` has begun, the measure never grows again in any execution in which no loop reads a reply of length zero. |
| `UdpDrain.FairSchedulesDrain` | mct/cmd/mct-docker-proxy/udp_proxy.go:99-173 | An infinite execution that is weakly fair to every goroutine, lets time pass and has called `Close` reaches a point after which all goroutines have ended, the table is empty and every connection is closed, exactly if its loops read only finitely many replies of length zero. |
| `UdpDrain.TalkingBackendDrains` | mct/cmd/mct-docker-proxy/udp_proxy.go:99-123 | It does so whatever else the backend keeps sending, non-empty replies and refused-connection errors without end included, if from some point on it sends no reply of length zero. |
| `UdpRefill.EmptyRepliesKeepLoopAlive` | mct/cmd/mct-docker-proxy/udp_proxy.go:100-122 | There is a fair execution in which `Close` has returned, the backend sends only replies of length zero, and a reply loop with its connection lives forever. |
| `UdpRefill.NonEmptyReplyEndsLoop` | mct/cmd/mct-docker-proxy/udp_proxy.go:115-119 | There is a fair execution in which the same late loop is sent a non-empty reply instead, cannot pass it on, and everything is released. |
| `UdpExpiry.LockIsFreed` | mct/cmd/mct-docker-proxy/udp_proxy.go:93-153 | In every weakly fair execution every critical section ends. |
| `UdpExpiry.RunGetsToNext` | mct/cmd/mct-docker-proxy/udp_proxy.go:128-162 | With a fair mutex, listener open or not, `Run` gets from every datagram to the next, unless it ends. |
| `UdpExpiry.IdleFlowExpiresExactly` | mct/cmd/mct-docker-proxy/udp_proxy.go:91-113 | In every weakly fair execution in which time passes, listener open or not, a loop that reads no reply from some point on is eventually done for good, with no entry leading to its connection and that closed, exactly unless it ends up waiting for the lock forever. |
| `UdpExpiry.IdleFlowExpires` | mct/cmd/mct-docker-proxy/udp_proxy.go:91-113 | With a fair mutex it always is, however many datagrams its client sends and however many reads are refused. |
| `UdpStarvation.UnfairMutexStarvesLoop` | mct/cmd/mct-docker-proxy/udp_proxy.go:92-97 | There is a weakly fair execution in which time passes and a loop that has left its read waits for the lock forever, its entry and connection staying, while its client keeps `Run` busy. |
| `UdpStarvation.FairMutexExpiresLoop` | mct/cmd/mct-docker-proxy/udp_proxy.go:92-97 | There is an execution with a fair mutex, the listener staying open, in which the loop in the same situation retires: `IdleFlowExpires` applies to it. |
| `UdpProxy.UDPProxy.constructor` | mct/cmd/mct-docker-proxy/udp_proxy.go:83-88 | A new proxy is the initial state: empty table, open listener, nobody holds the lock. |
| `UdpProxy.UDPProxy.StepRun` | mct/cmd/mct-docker-proxy/udp_proxy.go:126-163 | Each atomic step of `Run` changes the object as the state machine's step does. |
| `UdpProxy.UDPProxy.StepLoop` | mct/cmd/mct-docker-proxy/udp_proxy.go:91-123 | Each atomic step of a reply loop, its deferred end included, changes the object as the state machine's step does. |
| `UdpProxy.UDPProxy.StepClose` | mct/cmd/mct-docker-proxy/udp_proxy.go:166-173 | Each atomic step of `Close` changes the object as the state machine's step does. |
| `UdpProxy.UDPProxy.Execute` | mct/cmd/mct-docker-proxy/udp_proxy.go:91-173 | A fresh proxy under any schedule passes through the states of a run and keeps the invariant, so the theorems on runs hold of the object. |
| `UdpProxy.UDPProxy.TrackClient` | mct/cmd/mct-docker-proxy/udp_proxy.go:140-153 | Undisturbed, `Run` reuses the client's connection if there is one and otherwise dials, registers and serves a new one, or gives the datagram up with the table unchanged. |
| `UdpProxy.UDPProxy.Retire` | mct/cmd/mct-docker-proxy/udp_proxy.go:92-97 | Undisturbed, a leaving reply loop finds its own connection under its key, removes just that entry and closes just that connection. |
| `UdpProxy.UDPProxy.Close` | mct/cmd/mct-docker-proxy/udp_proxy.go:166-173 | Undisturbed, `Close` closes the listener and exactly the connections in the table, in whatever order it meets them. |
| `UdpProxy.UDPProxy.ForwardDatagram` | mct/cmd/mct-docker-proxy/udp_proxy.go:154-161 | The writing loop advances by what each write took and stops at the first failure, at once if the connection was closed since the lookup, adding exactly the writes that went through to what was sent. |
| `UdpProxy.UDPProxy.AnswerReply` | mct/cmd/mct-docker-proxy/udp_proxy.go:115-121 | The writing loop of a reply loop advances by what each write took, adds exactly those writes to what the client was sent, and goes on to arm the deadline again or, at the first failure and at once if the listener is closed, leaves. |
| `UdpProxy.SentFromIsPieces` | mct/cmd/mct-docker-proxy/udp_proxy.go:154-161 | Those writes are the pieces of the datagram, each on the connection that was looked up. |
| `UdpProxy.AnsweredFromIsPieces` | mct/cmd/mct-docker-proxy/udp_proxy.go:115-121 | Those writes are the pieces of the reply, each to the client of the connection it was read on. |
| `UdpProxy.PiecesAreAPrefix` | mct/cmd/mct-docker-proxy/udp_proxy.go:154-161 | Those pieces are, byte for byte and without gap or repetition, the datagram up to the failing write, and all of it if none fails. |
| `UdpProxy.AllOrNothingIsOnePiece` | mct/cmd/mct-docker-proxy/udp_proxy.go:154-161 | If a write takes everything or fails, a datagram goes out whole and once, or not at all. |
| `StreamSafety.StepKeepsInv` | mct/cmd/mct-docker-proxy/tcp_proxy.go:77-110 | Every step of the main goroutine, the waiter, a broker or a peer keeps the invariant on wait group, channels, bytes and open halves, under either close policy. |
| `StreamSafety.RunsKeepInv` | mct/cmd/mct-docker-proxy/sctp_proxy.go:56-91 | The same in every state of every run, for the loop both proxies share. |
| `StreamHistory.StateIsWhatHappened` | mct/cmd/mct-docker-proxy/tcp_proxy.go:86-105 | In every run what the proxy was sent, whether a peer has ended its stream and whether `quit` is closed is what the peers and `Run` did, whatever the loop made of it. |
| `StreamHistory.FailedDialGivesUp` | mct/cmd/mct-docker-proxy/tcp_proxy.go:78-83 | The loop gives up exactly if the backend could not be dialled; then no broker ever starts, nothing is delivered to anyone, and the client's connection is closed. |
| `StreamHistory.CopiesEndAsTheyDid` | mct/cmd/mct-docker-proxy/sctp_proxy.go:67-68 | A copy that has ended did so at the end of its stream exactly if it read that end, and reading it ends the copy. |
| `StreamOutcome.DeliversPrefix` | mct/cmd/mct-docker-proxy/tcp_proxy.go:86-95 | At every step, errors and quitting included, what is delivered is a prefix of what was read, which is a prefix of what was sent. |
| `StreamOutcome.EofMeansComplete` | mct/cmd/mct-docker-proxy/sctp_proxy.go:67-72 | A copy that ended at the end of its stream has delivered all of it, under either policy. |
| `StreamOutcome.GoroutinesAreJoined` | mct/cmd/mct-docker-proxy/tcp_proxy.go:85-109 | The wait group equals the number of unfinished brokers, `finish` is closed at most once and only at zero, and a loop past its dial returns only after both brokers have finished. |
| `StreamOutcome.TcpOppositeStaysUsable` | mct/cmd/mct-docker-proxy/tcp_proxy.go:86-91 | Until the full closes, a direction is readable and writable exactly until its own broker closes it; the opposite broker's end does not touch it. |
| `StreamOutcome.TcpDeliversEverything` | mct/cmd/mct-docker-proxy/tcp_proxy.go:86-109 | In a TCP run without I/O error and without quitting an end of stream is passed on only after the last byte, and the full closes and the return come only after both directions are complete. |
| `StreamOutcome.TcpOutcomeIsScheduleFree` | mct/cmd/mct-docker-proxy/tcp_proxy.go:85-109 | Two such runs that returned, whatever their schedules, end alike if the peers sent the same. |
| `StreamOutcome.SctpFirstDirectionIsComplete` | mct/cmd/mct-docker-proxy/sctp_proxy.go:67-72 | In an SCTP run without I/O error and without quitting the direction whose copy ends first is complete. |
| `StreamOutcome.SctpMayCutOtherDirection` | mct/cmd/mct-docker-proxy/sctp_proxy.go:67-90 | There is such a run in which the other direction loses a byte that was sent; by `TcpDeliversEverything` no TCP run does. |
| `SctpOutcome.BothDeliveredExactly` | mct/cmd/mct-docker-proxy/sctp_proxy.go:66-90 | In an SCTP run without I/O error and without quitting, with both streams ended and both copies still going on, every way in which the loop can return completes both directions exactly if both have already been delivered in full. |
| `SctpOutcome.FirstCloseDecides` | mct/cmd/mct-docker-proxy/sctp_proxy.go:67-72 | In any SCTP run, failures and quitting included, a direction is complete after the first close of a source exactly if its stream has ended and all of it had been delivered before that close. |
| `SctpOutcome.CompleteStays` | mct/cmd/mct-docker-proxy/sctp_proxy.go:66-90 | What has been delivered in full stays so under every step, under either policy. |
| `StreamDrain.ProxyStepDecreases` | mct/cmd/mct-docker-proxy/tcp_proxy.go:77-110 | Every step of the proxy's own goroutines decreases one measure. |
| `StreamDrain.CanStepMeansEnabled` | mct/cmd/mct-docker-proxy/tcp_proxy.go:77-110 | A goroutine that fairness obliges to go on has an enabled step that is no I/O error. |
| `StreamDrain.SettledLoopCanStep` | mct/cmd/mct-docker-proxy/tcp_proxy.go:93-109 | A loop that has not returned and whose peers have nothing to add is never deadlocked between join, wait group and channels: some goroutine can go on or is in a write that may block. |
| `StreamDrain.QuitEndsLoop` | mct/cmd/mct-docker-proxy/tcp_proxy.go:103-115 | Once `quit` is closed every weakly fair execution takes the loop to its return, whether the peers go on sending, end their streams or stop reading for good. |
| `StreamDrain.EndedStreamsEndLoop` | mct/cmd/mct-docker-proxy/tcp_proxy.go:93-109 | Once both peers have ended their streams the loop returns without quitting, if no write blocks forever. |
| `StreamDrain.TcpExecutionsDeliver` | mct/cmd/mct-docker-proxy/tcp_proxy.go:85-109 | Every weakly fair TCP execution without I/O error and without quitting, in which both peers end their streams and no write blocks forever, returns with every byte of both directions delivered. |
| `StreamDrain.SctpEndedCopyEndsLoop` | mct/cmd/mct-docker-proxy/sctp_proxy.go:66-90 | With full closes, once either copy has ended both connections get closed and the loop returns, without quitting and whether the peers go on sending, end their streams or stop reading for good. |
| `StreamForever.FinishedRunGoesOn` | mct/cmd/mct-docker-proxy/tcp_proxy.go:77-110 | Every run of either policy in which the loop has returned or given up is the beginning of a weakly fair execution in which no write blocks forever. |
| `StreamForever.CleanTcpExecution` | mct/cmd/mct-docker-proxy/tcp_proxy.go:85-109 | There is a fair TCP execution without I/O error and without quitting in which both peers send a byte and end their streams while the loop has still everything to do: `TcpExecutionsDeliver` and `EndedStreamsEndLoop` apply to it. |
| `StreamForever.QuitExecution` | mct/cmd/mct-docker-proxy/sctp_proxy.go:84-90 | There is a fair execution of either policy in which `quit` is closed while the loop serves two open streams: `QuitEndsLoop` applies to it. |
| `StreamServer.AloneIsExecution` | mct/cmd/mct-docker-proxy/tcp_proxy.go:129-136 | Among any number of client loops and the `Run` that starts them, each loop by itself goes through an execution of a client loop, so what is proved of one holds of all. |
| `StreamServer.AloneIsFair` | mct/cmd/mct-docker-proxy/tcp_proxy.go:129-136 | If the proxy as a whole is scheduled fairly, so is each of its loops. |
| `StreamServer.StepKeepsInv` | mct/cmd/mct-docker-proxy/sctp_proxy.go:94-105 | Every step of the proxy keeps the invariant of every loop, and each loop sees `quit` closed exactly when `Run` has closed it. |
| `StreamServer.EveryClientGetsLoop` | mct/cmd/mct-docker-proxy/tcp_proxy.go:129-136 | In every execution there are as many client loops as clients were accepted, each started afresh when its client was. |
| `StreamServer.RunFollowsItsSteps` | mct/cmd/mct-docker-proxy/tcp_proxy.go:113-136 | `Run` accepts until accepting fails, and has ended exactly if it has closed `quit`; under TCP it has unexposed by then. |
| `StreamServer.AcceptErrorEndsEverything` | mct/cmd/mct-docker-proxy/tcp_proxy.go:113-136 | Once `Accept` has failed every weakly fair execution of the whole proxy gets to a point from which on `Run` and all the client loops it ever started have ended, however many there are and whatever their peers do. |
| `StreamServer.ServerExecution` | mct/cmd/mct-docker-proxy/sctp_proxy.go:94-105 | There is a fair execution in which `Accept` fails while a client loop is still about to dial its backend. |
| `ClientLoop.Loop.StepBroker` | mct/cmd/mct-docker-proxy/tcp_proxy.go:86-91 | Each atomic step of a broker changes the object as the state machine's step does, under either policy. |
| `ClientLoop.Loop.StepMain` | mct/cmd/mct-docker-proxy/sctp_proxy.go:56-91 | Each atomic step of the main goroutine changes the object as the state machine's step does. |
| `ClientLoop.Loop.Execute` | mct/cmd/mct-docker-proxy/tcp_proxy.go:77-110 | A fresh loop under any schedule passes through the states of a run and keeps the invariant. |
| `ClientLoop.Loop.Copy` | mct/cmd/mct-docker-proxy/tcp_proxy.go:87 | Undisturbed, a copy delivers exactly what its source sent before the end of its stream, whatever chunks it reads, and leaves everything else of the loop as it was. |
| `ClientLoop.Loop.EndBroker` | mct/cmd/mct-docker-proxy/sctp_proxy.go:69-71 | After its copy a broker closes one half of each connection under the TCP policy and both connections under the SCTP policy, counts itself out of the wait group, and leaves the other broker and the main goroutine alone. |
| `PortExpose.StepConsistent` | mct/cmd/mct-docker-proxy/tcp_proxy.go:55-67 | From a state where the gateway's ports are those of the live IPv4 proxies, one each, an event leads to another such state exactly if it is not an applied expose without an answer, a lost unexpose, or an unexpose by an IPv6 proxy on a live IPv4 port. |
| `PortExpose.HistoryConsistent` | mct/cmd/mct-docker-proxy/tcp_proxy.go:38-75 | Over any history the gateway agrees with the live proxies throughout exactly if none of those events occurs. |
| `PortExpose.V4HistoryConsistent` | mct/cmd/mct-docker-proxy/tcp_proxy.go:38-75 | Over any history of IPv4 proxies whose requests are answered the exposed ports are always those of the proxies constructed and not yet unexposed. |
| `PortExpose.UnexposeComesFirst` | mct/cmd/mct-docker-proxy/tcp_proxy.go:113-136 | A proxy that has cut its clients has asked the gateway to unexpose its port at an earlier step, whether the request got there or not. |
| `PortExpose.RefusedStaysRefused` | mct/cmd/mct-docker-proxy/tcp_proxy.go:44-64 | A proxy whose expose was refused keeps the listener it had opened, and is never unexposed, in any later state of any history. |
| `PortExpose.StoppingV6CutsV4` | mct/cmd/mct-docker-proxy/tcp_proxy.go:116-128 | A history in which all requests are answered and a stopping IPv6 proxy takes the port of a listening IPv4 proxy off the gateway. |
| `PortExpose.TCPProxies.NewTCPProxy` | mct/cmd/mct-docker-proxy/tcp_proxy.go:38-75 | Construction listens first, then exposes an IPv4 port and nothing for IPv6; it succeeds exactly if that is answered and accepted, a refusal leaves the opened listener behind, and only a lost answer can leave a port without a proxy. |
| `PortExpose.TCPProxies.EndRun` | mct/cmd/mct-docker-proxy/tcp_proxy.go:113-136 | The deferred calls of `Run` unexpose first and then close `quit`, in any state of the gateway; a consistent gateway stays so exactly if the unexpose does not break it. |
| `SaveToFile.OverwriteCrashSafety` | mct/pkg/libmachine/persist/filestore.go:42-62 | When overwriting, every crash point before the clean-up leaves the complete old or new contents, or no file and the complete new contents in the temporary one; all crash points do so exactly if the call does not end in a failed rename whose clean-up succeeds. |
| `SaveToFile.OverwriteResult` | mct/pkg/libmachine/persist/filestore.go:42-62 | With a successful clean-up no temporary file is left, and of the error returns exactly a failed rename changes the directory: it leaves neither version. |
| `SaveToFile.SavedMeansReplaced` | mct/pkg/libmachine/persist/filestore.go:37-62 | On either path success means that the configuration has the new contents and nothing else changed. |
| `SaveToFile.OutcomeIsFirstFailure` | mct/pkg/libmachine/persist/filestore.go:37-62 | Each error return happens exactly if its call is the first to fail, and success exactly if none does, on both paths. |
| `SaveToFile.NothingFailsReplaces` | mct/pkg/libmachine/persist/filestore.go:37-62 | A call in which nothing fails leaves the new contents as the configuration and nothing else changed, whether there was one or not. |
| `SaveToFile.CreateLeavesPrefixes` | mct/pkg/libmachine/persist/filestore.go:38-40 | Creating is not atomic: its crash points are exactly the prefixes written so far. |
| `SaveToFile.SaveTouchesOnlyConfig` | mct/pkg/libmachine/persist/filestore.go:37-62 | At no crash point is the marker or any other file affected. |
| `FileStore.Filestore.SaveToFile` | mct/pkg/libmachine/persist/filestore.go:37-62 | The procedure with its deferred removal succeeds exactly if no call fails, then has replaced the configuration and nothing else, and takes the disk through exactly the states analysed above. |
| `FileStore.Filestore.Save` | mct/pkg/libmachine/persist/filestore.go:64-78 | Saving succeeds exactly if the host can be encoded and no call fails. Encoding errors and a failing directory creation leave the disk alone; otherwise only this machine's directory changes, with every intermediate state recorded. |
| `FileStore.SaveSucceedsExactly` | mct/pkg/libmachine/persist/filestore.go:64-78 | A save succeeds exactly if the host has a driver that can be encoded, its directory can be made and no call fails. |
| `FileStore.SavedChangesConfig` | mct/pkg/libmachine/persist/filestore.go:64-78 | Then the machine's configuration is the encoded host, and nothing else on the disk has changed. |
| `FileStore.Filestore.Remove` | mct/pkg/libmachine/persist/filestore.go:80-83 | Removal takes the files in some order and then the directory; a failing one leaves the files it did not reach. |
| `FileStore.Filestore.SetExists` | mct/pkg/libmachine/persist/filestore.go:85-95 | The marker is created if the directory exists, an existing one is kept as it is, and nothing else changes. |
| `FileStore.SetExistsOnlyAddsMarker` | mct/pkg/libmachine/persist/filestore.go:85-95 | Afterwards the marker is there, empty if it is new, and every file that was there, an old marker included, is as it was. |
| `FileStore.LoadedHostIsCurrent` | mct/pkg/libmachine/persist/filestore.go:111-122 | Whatever put the configuration there, a host that loads is of the current version, its driver is none or what `RawDriver` holds, and in the second case saving it gives a document that loads as the same host. |
| `HostDoc.SavedHostLoads` | mct/pkg/libmachine/host/migrate.go:46-66 | A host that can be saved loads again exactly if its version is 3, with every persisted field as it was and its driver's document as `RawDriver`. |
| `HostDoc.MarshalSucceedsExactly` | mct/pkg/libmachine/host/migrate.go:33-35 | A host can be encoded unless its driver is a `RawDataDriver` without data. |
| `HostFields.MigratesExactly` | mct/pkg/libmachine/host/migrate.go:46-63 | Exactly these documents load: objects whose last version is 3, whose known members are null or of their field's type, and which give no driver document after a null for it. |
| `HostFields.MigratedFields` | mct/pkg/libmachine/host/migrate.go:52-66 | Each field of a loaded host is the last value other than null given for it, or empty, or for the name the directory's; `RawDriver` is the last driver document, and the driver that too unless it was ever null. |
| `HostFields.LastMeaning` | mct/pkg/libmachine/host/migrate.go:61 | The last value for a member is that of a position after which only nulls are given for it. |
| `HostFields.LoadFailsExactly` | mct/pkg/libmachine/persist/filestore.go:111-122 | Each error of a load happens exactly in its case: no directory, no configuration in it, another version or none, or a document that does not decode. |
| `HostDoc.ReloadedSavesTheSame` | mct/pkg/libmachine/host/migrate.go:33-40 | The reloaded host encodes to the same document, and reloading it again changes nothing. |
| `HostDoc.LoadSaveLoadIsStable` | mct/pkg/libmachine/host/migrate.go:33-66 | A host loaded from any document, also one not written by `Save`, can be saved exactly if the document has a driver member, and then loads as the same host, up to a driver document that a later null had discarded. |
| `HostDoc.DecodedVersion` | mct/pkg/libmachine/host/migrate.go:47-54 | The version checked in the metadata is the version the full decoding arrives at, duplicate members included. |
| `HostDoc.UpdateReachesNextLoad` | mct/pkg/libmachine/host/host.go:82-94 | An accepted configuration is what the next load finds in `RawDriver`; a refused one changes neither the host's raw driver nor the saved document. |
| `HostObject.Migrate` | mct/pkg/libmachine/host/migrate.go:46-66 | Filling a fresh host and the driver it points to in place ends with the same error, or in a fresh host with the same value, as decoding the document. |
| `HostObject.HostObj.SetDriver` | mct/pkg/libmachine/host/migrate.go:37-40 | A driver document goes into the object that the host and `MigrateHost` share; null drops the host's pointer while the object keeps what it had, and after that nothing fits. |
| `HostObject.HostObj.Update` | mct/pkg/libmachine/host/host.go:82-94 | The driver takes the configuration first, and the host's own copy changes only if the driver took it. |
| `StoreRefinement.SaveRefines` | mct/pkg/libmachine/persist/filestore.go:64-78 | A successful save is an update of the map at the host's name, and stored hosts keep the name of their directory. |
| `StoreRefinement.LoadRefines` | mct/pkg/libmachine/persist/filestore.go:111-122 | Loading answers from the map, errors included, and a loaded host carries its directory's name. |
| `StoreRefinement.ExistsRefines` | mct/pkg/libmachine/persist/filestore.go:97-109 | The existence check answers whether the map has the machine marked, and nothing but the marker makes it so. |
| `StoreRefinement.OpsRefine` | mct/pkg/libmachine/persist/filestore.go:64-109 | Any sequence of successful saves, markings and removals keeps the disk a representation of the map. |
| `StoreRefinement.StoreIsAMap` | mct/pkg/libmachine/persist/filestore.go:64-122 | After any such sequence on an empty store every load and every existence check answers as the map does. |
| `StoreRefinement.OthersAreUntouched` | mct/pkg/libmachine/persist/filestore.go:64-122 | Operations on other machines leave a machine's directory exactly as it was. |
| `StoreRefinement.SaveThenLoad` | mct/pkg/libmachine/persist/filestore.go:64-122 | A saved version-3 host is what a later load returns, whatever happened to other machines in between. |
| `StoreRefinement.LoadThenSaveChangesNothing` | mct/pkg/libmachine/persist/filestore.go:64-122 | Saving a host that was just loaded leaves the whole disk as it was. |
| `StopSequence.RetryUntil` | mct/pkg/libmachine/host/host.go:59 | A retry asks in turn until it sees the state, meets an error that ends it or reaches its limit, and succeeds exactly if the last answer was the state. |
| `StopSequence.WaitForMachineState` | mct/cmd/mct/cmd/utils.go:36-51 | The wait asks in turn until it sees the state, meets an error or reaches its limit, and succeeds exactly if the last answer was the state. |
| `StopSequence.WaitStopsWhenSeen` | mct/cmd/mct/cmd/utils.go:39-50 | Such questions are consecutive, at most as many as the limit, fewer only if the last was answered as awaited or with an error that ends the wait, and only the last can have been answered as awaited. |
| `StopSequence.WaitSucceedsExactly` | mct/cmd/mct/cmd/utils.go:39-50 | A wait or retry succeeds exactly if within its limit a question would be answered as awaited before any answer that ends it. |
| `StopSequence.RunActionForStopped` | mct/pkg/libmachine/host/host.go:50-60 | Checks first, acts only if Stopped was not seen, and retries the check only after an action that succeeded. |
| `StopSequence.AttemptChecksFirst` | mct/pkg/libmachine/host/host.go:50-60 | An attempt that sees Stopped first never invokes the driver's action; any other invokes it right after the check; it succeeds exactly if the driver carried the action out and Stopped was seen after it. |
| `StopSequence.StopCommand` | mct/cmd/mct/cmd/stop.go:51-76 | The command asks, stops, kills if stopping failed, waits and removes in the order, and with the end, of the specification that `StoppedExactly`, `RemovedExactly` and `OnlyRunningIsStopped` characterise. |
| `StopSequence.OnlyRunningIsStopped` | mct/cmd/mct/cmd/stop.go:51-57 | A machine not found running is left alone after that one question, and only that. |
| `StopSequence.StoppedExactly` | mct/cmd/mct/cmd/stop.go:58-64 | A running machine counts as stopped, and the command goes on, exactly if Stopped was seen after the driver had carried out the stop and within that attempt, or, failing that, likewise for the kill, which is attempted exactly then. |
| `StopSequence.RemovedExactly` | mct/cmd/mct/cmd/stop.go:68-76 | A stopped machine is left so unless its removal was asked for; otherwise that is tried exactly if a last wait sees Stopped before an error and before its limit, and succeeds if the store's does. |
| `StopSequence.LateStopIsAnError` | mct/pkg/libmachine/host/host.go:50-60 | A machine that stops, as told to, only after the retry has given up is taken for one that cannot be stopped. |
| `StopSequence.RemovedOnlyWhenStopped` | mct/cmd/mct/cmd/stop.go:55-76 | For every sequence of answers and failures the entry is removed only on request, last, after Stopped was seen following an action the driver carried out, and seen again right before; a kill only follows a failed stop, and no action is asked of a driver just seen stopped. |
| `StopSequence.StoppedMeanwhileIsAnError` | mct/pkg/libmachine/host/host.go:51-53 | A machine that stops by itself after it was seen running makes both attempts fail without any action, and is not removed. |
| `StopSequence.ObedientDriverIsRemoved` | mct/cmd/mct/cmd/stop.go:55-76 | A driver that carries out the stop and then stays stopped always lets the command reach the removal. |
| `StopSequence.KilledDriverIsRemoved` | mct/cmd/mct/cmd/stop.go:58-76 | A driver that refuses to stop but carries out the kill and then stays stopped lets the command succeed, and reach the removal if that was asked for. |
| `Lifecycle.CommandKeepsMatched` | mct/cmd/mct/cmd/run.go:81-124 | Whatever the machine, marker and configuration agree after an uninterrupted command exactly if it is none that leaves them separated: by a failure on the create branch, a failed rename, a removal that failed in between, or by doing nothing about their being so. |
| `Lifecycle.HistoryMatched` | mct/cmd/mct/cmd/run.go:81-124 | Over any history of uninterrupted commands they agree throughout exactly if no command is separating. |
| `Lifecycle.FailedMarkLeavesUnmarked` | mct/cmd/mct/cmd/run.go:101-106 | A failing `SetExists`, which `run` only reports, leaves a machine with a configuration and no marker. |
| `Lifecycle.SuccessfulHistoryMatched` | mct/cmd/mct/cmd/stop.go:42-77 | If the store's writes succeed and nothing is interrupted, marker and configuration agree between any two commands. |
| `Lifecycle.WedgedForever` | mct/cmd/mct/cmd/run.go:81-124 | A marker without a configuration survives every later sequence of commands, interrupted or not, and no `run` in it starts the machine. |
| `Lifecycle.InterruptedRunCanWedge` | mct/cmd/mct/cmd/run.go:81-124 | Whatever the machine, an interruption of `run` can leave a marker with no configuration file at all exactly if it was so, or on a create branch that sets the marker where there is no configuration or the old one gets removed, or on an update that removes the old one. |
| `Lifecycle.InterruptedStopCanWedge` | mct/cmd/mct/cmd/stop.go:68-76 | Whatever the machine, an interruption of `stop` can do so exactly if it was so or a removal takes the configuration before the marker. |
| `StuckMachine.StuckForever` | mct/cmd/mct/cmd/run.go:81-124 | A marked machine whose configuration is missing, truncated or undecodable stays exactly as it is under every later sequence of commands, interrupted or not, and no `run` in it starts the machine. |
| `StuckMachine.InterruptedRunCanStick` | mct/cmd/mct/cmd/run.go:101-119 | From any machine, an interruption of `run` can lead there exactly if it was so, or on a create branch that sets the marker where there is no configuration that loads or the old one gets removed, or on an update that removes the old one. |
| `StuckMachine.RunSticksExactly` | mct/cmd/mct/cmd/run.go:81-119 | Of the states that `run` takes any machine through, exactly these are stuck: those of a marked one until a useless configuration is replaced, those from the removal of the old file on until a new one that loads takes its place, and those of a first save with a prefix that does not load. |
| `StuckMachine.OverwriteConfigAt` | mct/pkg/libmachine/persist/filestore.go:42-62 | At each crash point of an overwrite the configuration is the old one, then none, then the new one, with the turning points given. |
| `StuckMachine.InterruptedFirstSave` | mct/pkg/libmachine/persist/filestore.go:38-40 | If there is no configuration yet, exactly these disks of the create branch are stuck: the marker without a configuration, and each prefix written so far that does not load. |
| `StuckMachine.RunLeavesStuckExactly` | mct/cmd/mct/cmd/run.go:101-119 | From any machine, an uninterrupted `run` leads there exactly if, the marker being set, the rename failed, what was written does not load, or what does not load was left in place; or if it was so and nothing was written. |
| `StuckMachine.InterruptedStopCanStick` | mct/cmd/mct/cmd/stop.go:68-76 | From any machine, a `stop` can lead there, interrupted, exactly if it was so or a removal takes the configuration before the marker. |
| `Commands.CreateMachine` | mct/cmd/mct/cmd/run.go:86-110 | The create branch sets the marker before saving, ignores a failure to set it, saves under the host's own name, and leaves the result and every crash point the specification says. |
| `Commands.UpdateMachine` | mct/cmd/mct/cmd/run.go:111-120 | The update branch loads, updates and saves, under the name in the stored document, and leaves the result and every crash point the specification says; `RunContents.RunSavesUpdatedHost` says what is saved. |
| `Commands.RunCmd` | mct/cmd/mct/cmd/run.go:54-124 | For every host, misnamed ones included, `run` does to all machines what the specification says; to this machine it does, at its end and at every crash point, what the lifecycle's `Run` does, and with a host of this name it ends exactly where that does and touches no other machine. |
| `RunContents.RunSavesUpdatedHost` | mct/cmd/mct/cmd/run.go:86-117 | After a `run` that has saved, loading the machine finds the host that was stored or made, with the new driver configuration if the driver accepted it and the one it had if not, and every other field as it was. |
| `RunContents.AcceptedConfigurationIsStored` | mct/cmd/mct/cmd/run.go:97-117 | An accepted configuration is what the next load finds in `RawDriver`; after a refused one of a stored machine it finds what was there. |
| `RunContents.RunStartsExactly` | mct/cmd/mct/cmd/run.go:54-124 | `run` gets to starting the machine exactly if the machine's directory and marker can be looked at, a marked machine can be loaded or a new one made and created, no store operation of the save fails, a new machine's ignition file can be written, and a driver can be started again. A failing `SetExists` or a refused configuration does not matter. |
| `Commands.RunIsLifecycleRun` | mct/cmd/mct/cmd/run.go:81-124 | The specification of `run` over all machines, projected to this machine, is the lifecycle's `Run`. |
| `Commands.RunLeavesOthers` | mct/cmd/mct/cmd/run.go:104-117 | No machine but this one and the one named in the saved host changes. |
| `Commands.MisnamedHostWedges` | mct/cmd/mct/cmd/run.go:86-124 | A created host that goes by another name leaves this machine marked but without a configuration, and `run` does not start it. |
| `Commands.SavedRunReloads` | mct/cmd/mct/cmd/run.go:104-124 | A host of the current version that `run` has saved always loads again, so only its driver can keep the machine from being started. |
| `Commands.StopCmd` | mct/cmd/mct/cmd/stop.go:42-77 | `stop` acts exactly on a machine that is marked and can be loaded; on the store it changes the disk, at its end and at every crash point, as the lifecycle's `Stop`, removes the machine if it says so, and changes anything only after Stopped was seen following an action of this command and again right before. |

## Left out

- Sockets, kernel buffers and the SCTP library: reads, writes and closes are outcomes under simple contracts. A closed connection fails, a successful write takes at least one byte and no more than it was given, and a read on a backend connection succeeds only strictly before its deadline.
- The contents of datagrams beyond their bytes, and address zones: a client is an address of 4 or 16 bytes and a port. Addresses of another length, on which the key function panics or ignores bytes, do not reach the state machine.
- A second call of `UDPProxy.Close`: the state machine has one caller.
- The fairness of Go's `sync.Mutex` towards its waiters: a hypothesis where it is needed, and `UdpStarvation` shows that it is.
- Whether Go's wrapped refused-connection error satisfies the comparison in the reply loop: the branch is a choice of the environment, as is the text that `isClosedError` inspects, which only decides about a log line.
- Internals of `io.Copy` (buffer sizes, zero-copy paths): a copy reads some bytes, writes some or all of them, and ends at end of stream or with an error.
- StreamDrain.EndedStreamsEndLoop: does not promise an end while a write on an open connection blocks forever, because the code sets no write deadline and does not end then either. `QuitEndsLoop` and `SctpEndedCopyEndsLoop` need no such assumption.
- The accept loop as an object: `StreamServer` models `Run` and its client loops on values, and does not say what the port's exposure is meanwhile, which is `PortExpose`.
- HTTP posts, URL parsing and JSON bodies of expose and unexpose: a request is lost, applied without an answer, or answered, and the gateway rejects a taken local address. Port 0, and the closing of a refused proxy's listener by the end of its process, are not modelled.
- Signal handling and process exit in the proxy's `main.go`, which can pre-empt the deferred calls of `Run`.
- JSON text, escaping and indentation: the text form is a parameter assumed to decode what it encoded. Member names are matched exactly where Go also matches them case-insensitively; non-integer and out-of-range numbers and invalid UTF-8 are not modelled, and neither is the text of an undecodable file beyond its being one.
- HostDoc.UpdateReachesNextLoad: does not cover a host without a driver, on which the original fails with a nil dereference; `Client.Load` always puts a driver in.
- The order in which `json.Unmarshal` goes on after a member of the wrong type: the result is an error either way, and the half-filled host is dropped.
- Symbolic links, permissions, `MkdirAll` of intermediate directories, names that are not plain path components, and the durability of single system calls: a crash point is a state between two of them, or between two bytes of a write.
- Other files in a machine's directory, the ignition file among them: `run` also writes `mct.ign` after the first save. That this may fail and end the command is modelled; the file itself is not, as `Lifecycle` follows the marker and the configuration only.
- Concurrent commands on the same store.
- RPC drivers, the hyperkit driver and `crcerrors.Retry`: the driver is an arbitrary oracle, and a retry is assumed only to ask the check repeatedly and to succeed when it sees the state. Timeouts are numbers of questions.
- What `run` does after its last load: starting the machine and waiting for it.
- `daemon.go`, `setup.go`, `ssh.go`, `bundle.go`, configuration, ignition templates, key generation and command-line parsing: plumbing and library calls that would add only easy members.
