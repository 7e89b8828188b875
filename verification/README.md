# Verification of the EasyTier Go host

This project models the concurrent parts of the EasyTier Go host and proves what they keep.

* **The reactor** (`StreamReads`, `StreamWrites`, `UdpReceive`, `UdpSend`, `Accept`, `PacketSink`,
  `OperationTable`, `Ownership`). Every critical section under the reactor's mutex is one step of a
  state machine, and so is every point at which a thread acts without it. A run is any sequence of
  steps, so the theorems hold of every interleaving of guest calls and workers. A thread that has
  left the mutex and is about to signal is counted in `owes`; the one-slot completion channel is
  `token`; `seen` holds the operations that were takeable when a token was last received. Sockets
  are oracles, with logs of what went in and out.
* **The same code in place** (`Stream`, `Sockets`, `Reactor`). Classes with the fields of the Go
  structs, whose methods assign them statement by statement and are proved against the functions
  of the state machines.
* **The engine** (`Wakeup`, `Outcomes`, `CancelRace`, `PacketBatch`). The three coalescing hops of a
  completion signal, the driver's table of pending operations and its loops, the race between
  submission, cancellation and close, and the batching of packets.
* **Compact cores** (`AeadCache`, `Wire`, `UdpWire`, `DnsWire`, `Manager`). The cipher cache, the two
  wire formats and the table of instances.

Where the code does not meet a property in general, the code is modelled as it is, a concrete run
shows that the failure happens, and the exact condition is proved for all runs:

* `CloseHandle` on a listener or a datagram tells its waiters nothing. Over a run every waiter that
  has an answer can learn of it if and only if no handle is closed under a waiter that the object has
  nothing for while no signal is present or promised (`Accept.AllToldUnlessStranded`,
  `UdpReceive.AllToldUnlessStranded`); that step, and no other, leaves exactly those waiters untold
  (`UntoldByCloseHandleOnly`). It happens in `CloseHandleStrandsWaiter`.
* `ReceivePacket` does not pass its token on. A sleeping receiver misses a packet exactly when another
  one takes one of two or more, with no token present or promised and no third thread about to look
  (`PacketSink.MissedByCheckOnly`, `PacketSink.ServedUnlessDeserted`). A sink for one packet is safe
  with any number of receivers (`PacketSink.OnePacketSinkServesAll`), a sink with one receiver is safe
  (`PacketSink.SingleReceiverNeverMisses`), and on any other idle sink two sleepers can come to it
  (`PacketSink.SecondSleeperCanMiss`).
* A stored UDP receive error can be overwritten before it is handed out: exactly when another error
  comes in while it is stored (`UdpReceive.ErrorLogsAreCalls`), which only a `TakeUDPReceive` that
  returns a datagram in front of it, with another waiter behind, makes possible
  (`UdpReceive.RiskOnlyByTake`). It happens in `UdpReceive.ErrorIsOverwritten`.
* A connection that `Accept` returns together with an error is never closed: after Close a socket is
  closed if and only if it is not one of these (`Ownership.CloseReleasesEverything`,
  `Ownership.AcceptWithErrorLeaks`).
* A data-plane operation gets its one outcome if and only if its id is not handed out again while it
  is pending (`Outcomes.ExactlyOneOutcome`, `Outcomes.ReissueLosesTheFirst`); and a cancel on its way
  reaches its own operation if and only if the id was not handed out again since
  (`Outcomes.CancelHitsItsOwn`, `Outcomes.CancelCanReachAnother`).
* A retain or delete request that reports success leaves exactly the entries whose close found the
  context ended (`Manager.SuccessLeavesTheSkipped`, `Manager.LateContextLeavesStray`).
* The command that `handlePacketBatch` takes off its queue behind a batch gets a response if and only
  if the batch's drive did not fail (`PacketBatch.OneResponseEach`, `PacketBatch.FollowerUnanswered`).

`dafny verify dfyconfig.toml` checks the whole project.

## Model

| member | source | states |
|---|---|---|
| StreamReads.ReadBytesConserved | internal/reactor/stream.go:80-188 | over every run, the bytes and errors TakeRead has handed out, followed by what is buffered, are what the socket returned, in order |
| StreamReads.LogsAreCalls | internal/reactor/stream.go:96-172 | the logs of the conservation law are the calls: only TakeRead adds to what was delivered, exactly what it returns, and only a worker adds to what arrived, exactly what it read |
| StreamReads.TakeReadAnswer | internal/reactor/stream.go:116-172 | TakeRead returns a prefix of the buffer within the capacity asked for, leaves the rest, and hands an error out only with or after the last byte before it |
| StreamReads.CancelLosesNothing | internal/reactor/stream.go:174-207 | cancelling a read leaves the buffer and the pending error as they were |
| StreamReads.ReadQueueNeverStalls | internal/reactor/stream.go:52-114 | behind every queued read there is a worker running or something to take |
| StreamReads.ReadsServedInOrder | internal/reactor/stream.go:116-211 | reads are served first in, first out, and before everything still waiting |
| StreamReads.NoReadWakeupLost | internal/reactor/stream.go:52-211 | a read that can be taken has had a completion token received since it became so, or the token is present, or a thread owes it |
| StreamReads.StaysTakeable | internal/reactor/stream.go:80-211 | once takeable a read stays so until taken, cancelled or the reactor closes, so no token goes stale |
| StreamWrites.WireInSubmissionOrder | internal/reactor/stream.go:213-294 | the bytes on the connection are prefixes of the requests that became active, concatenated in submission order and before anything still queued |
| StreamWrites.OneWriteWorker | internal/reactor/stream.go:213-294 | at most one write worker a stream, writing exactly the active request, and one whenever anything is queued |
| StreamWrites.EveryWriteInOnePlace | internal/reactor/stream.go:213-357 | every claimed write is exactly one of queued, active, done |
| StreamWrites.SuccessfulWriteIsWhole | internal/reactor/stream.go:245-312 | a write reported as a success is on the wire whole and contiguous |
| StreamWrites.RequestIsArgument | internal/reactor/stream.go:213-243 | the data of a claimed write is the argument of the StartWrite that claimed it, for good |
| StreamWrites.CancelQueuedWrite | internal/reactor/stream.go:314-341 | cancelling a write before its turn keeps every byte of it off the wire |
| StreamWrites.NeverSentStays | internal/reactor/stream.go:245-341 | and it stays off the wire whatever happens next |
| StreamWrites.NoWriteWakeupLost | internal/reactor/stream.go:280-357 | a finished write has had a token received since, or the token is present or owed |
| Stream.RemoveOperation | internal/reactor/stream.go:190-207 | the loop drops the first occurrence and nothing else |
| Stream.Transmit | internal/reactor/stream.go:257-279 | the write loop puts a prefix on the wire, and without an error the whole request |
| Stream.StreamState.QueueRead | internal/reactor/stream.go:52-78 | StartRead on the stream's own fields, against the model's enqueue and prepare |
| Stream.StreamState.PrepareRead | internal/reactor/stream.go:80-94 | a worker starts only for a waiting head with nothing buffered, running or closed |
| Stream.StreamState.PublishRead | internal/reactor/stream.go:96-114 | the worker's result becomes the buffer |
| Stream.StreamState.TakeData | internal/reactor/stream.go:140-158 | the buffer is cut at the head's capacity, an end of file survives only for an empty answer |
| Stream.StreamState.TakeHead | internal/reactor/stream.go:130-172 | the head leaves, the next worker starts, and the next waiter is signalled when it has something |
| Stream.StreamState.CancelRead | internal/reactor/stream.go:174-188 | the waiter leaves the queue, and a new head with data is signalled |
| Stream.StreamState.QueueWrite | internal/reactor/stream.go:213-243 | a request joins the queue and starts the worker if none runs |
| Stream.StreamState.FetchWrite | internal/reactor/stream.go:245-256 | the next request becomes active, or the worker gives up its flag |
| Stream.StreamState.CancelWrite | internal/reactor/stream.go:314-322 | an active request is left to finish, a queued one leaves the queue |
| Stream.StreamState.CloseLocked | internal/reactor/stream.go:343-357 | close drops the queued writes, fails with net.ErrClosed exactly those still in the map, and asks for a signal when a read has an answer or a write failed |
| Stream.StreamState.ShutdownLocked | internal/reactor/stream.go:359-363 | shutdown empties both queues |
| OperationTable.TablesPartitionOperations | internal/reactor/reactor.go:153-220 | in every reachable state of all the call sites, each with its own map and kind, the claimed ids are the disjoint union of the ten maps |
| OperationTable.CancelFindsItsObject | internal/reactor/reactor.go:153-220 | CancelOperation finds the object in the map its kind names, removes it and the claim, and touches nothing else; its default branch is unreachable |
| OperationTable.ClosedStaysEmpty | internal/reactor/reactor.go:269-309 | after Close the maps stay empty, no id is claimed, no object is made and no worker starts |
| OperationTable.WorkerAnswersItsOwnClaim | internal/reactor/dns.go:70-78 | over every run a worker's answer changes what a call reports for an id if and only if it is the worker of the id's present claim |
| OperationTable.LateWorkerChangesNothing | internal/reactor/dns.go:70-78 | an id that was cancelled and claimed again keeps what it reports, whatever the earlier claim's worker brings back |
| OperationTable.WorkerStepIsComplete | internal/reactor/factory.go:31-142 | the workers of creates, lookups, local addresses and management calls all store their answer in that way |
| OperationTable.AnswerIsOfPresentClaim | internal/reactor/dns.go:84-125 | what a call reports for an id is what the worker of the present claim brought back, and it is pending only while that worker runs |
| OperationTable.NoAnswerWakeupLost | internal/reactor/dns.go:70-125 | a create, lookup or management call whose answer has not been read has had a token received since it finished, or the token is present or owed |
| OperationTable.FinishManagementSite | internal/reactor/management.go:61-72 | FinishManagement, which releases before it deletes, is the generic removal from the management map and its claims |
| OperationTable.DnsResultSite | internal/reactor/dns.go:84-110 | DNSResult removes a failed lookup from the lookups and their claims, and leaves a successful one |
| Reactor.Reactor.SignalCompletion | internal/reactor/reactor.go:122-127 | after the non-blocking send the token is there |
| Reactor.Reactor.ClaimOperation | internal/reactor/reactor.go:129-138 | a claim fails exactly on a closed reactor or a used id |
| Reactor.Reactor.ReleaseOperation | internal/reactor/reactor.go:140-146 | a release drops the id only under the kind that claimed it |
| Reactor.Reactor.AllocateHandle | internal/reactor/reactor.go:148-151 | handles count up modulo 64 bits |
| Reactor.Reactor.CancelOperation | internal/reactor/reactor.go:153-220 | the switch over the kinds performs the model's cancel, always finds the object, and says whether it has a context to cancel |
| Reactor.Reactor.CloseTables | internal/reactor/reactor.go:269-309 | the first Close empties every map and hands on all that is to be closed or cancelled, later ones change nothing |
| Ownership.OneOwner | internal/reactor/factory.go:31-142 | after any run every socket from the factory or Accept is at exactly one place, and nothing else is anywhere |
| Ownership.HandleSocketIsOpen | internal/reactor/reactor.go:226-257 | the socket of a stream, datagram or listener handle is open, nobody is about to close it, a handle is in one table only and no two share a socket |
| Ownership.CloseReleasesEverything | internal/reactor/reactor.go:269-343 | once Close has returned and no other call is closing anything, no worker lives and a socket is closed if and only if it did not come with an error from Accept |
| Ownership.NothingLeaks | internal/reactor/listener.go:49-74 | with an Accept that returns either a connection or an error nothing leaks |
| Ownership.AcceptWithErrorLeaks | internal/reactor/listener.go:62-67 | a run in which a connection returned together with an error is never closed |
| UdpSend.SendOrderKept | internal/reactor/udp.go:65-106 | accepted datagrams are attempted, in hand or queued in the order of acceptance, at most 64 queued |
| UdpSend.SendLogsAreCalls | internal/reactor/udp.go:65-106 | the logs are the calls: what TryUDPSend accepted and what the worker passed to WriteTo |
| UdpSend.SendNeverBlocksOrPanics | internal/reactor/udp.go:262-283 | a TryUDPSend that reaches the channel finds it open and with room |
| UdpSend.DrainedBeforeShut | internal/reactor/udp.go:65-106 | a socket that is shut and was not shut by Close has attempted everything it accepted, before or after the reactor closed |
| UdpSend.ClosedHandleDrains | internal/reactor/reactor.go:226-257 | a socket whose handle is closed is stopped or about to be, and drains until its worker ends or Close shuts it |
| UdpSend.ClosedHandleAcceptsNothing | internal/reactor/udp.go:262-283 | after its handle closes a socket accepts nothing more |
| UdpSend.SendWaiterWillWake | internal/reactor/udp.go:285-307 | a waiter that is not ready has a queued datagram, or one not yet announced, ahead of it |
| UdpSend.NoSendWakeupLost | internal/reactor/udp.go:65-106 | a ready waiter has had a token received since, or the token is present or owed |
| UdpReceive.ReceiveQueueBounded | internal/reactor/udp.go:148-200 | at most 64 datagrams queued, fewer while a worker runs, one worker a socket |
| UdpReceive.ReceivedInOrder | internal/reactor/udp.go:148-260 | datagrams taken, then queued, are the arrivals in order |
| UdpReceive.ReceiveLogsAreCalls | internal/reactor/udp.go:148-260 | the logs are the calls: what a worker read and, before truncation, what TakeUDPReceive returned |
| UdpReceive.ReceiveNeverStalls | internal/reactor/udp.go:114-146 | on an open handle a waiter implies a running worker, a queued datagram or a stored error |
| UdpReceive.NoReceiveWakeupLost | internal/reactor/udp.go:114-260 | on an open handle no wakeup is lost |
| UdpReceive.ErrorLogsAreCalls | internal/reactor/udp.go:148-260 | an error comes in only with a failed ReadFrom on an open socket, is handed out only by TakeUDPReceive, and is overwritten exactly when another comes in while it is stored |
| UdpReceive.ErrorsAccounted | internal/reactor/udp.go:148-260 | over every run the errors that came in are those handed out, those overwritten and the one stored |
| UdpReceive.RiskOnlyByTake | internal/reactor/udp.go:238-260 | a worker comes to read while an error is stored exactly by a take of a datagram in front of it with another waiter behind |
| UdpReceive.ErrorIsOverwritten | internal/reactor/udp.go:238-260 | a run in which the first of two errors is never handed out |
| UdpReceive.UntoldByCloseHandleOnly | internal/reactor/reactor.go:234-244 | a step leaves a waiter with an answer it cannot learn of if and only if it closes the waiter's handle while the socket has nothing for it and no signal is present or promised |
| UdpReceive.AllToldUnlessStranded | internal/reactor/reactor.go:226-257 | over a whole run every waiter with an answer can learn of it if and only if no handle is closed in that way |
| UdpReceive.CloseHandleStrandsWaiter | internal/reactor/reactor.go:234-244 | a run in which closing a handle leaves a waiter without any signal |
| Accept.AcceptIsExclusive | internal/reactor/listener.go:49-135 | at most one of worker running, one connection stored, error stored |
| Accept.AcceptedInOrder | internal/reactor/listener.go:76-135 | connections and errors are handed out in the order they came, none lost and none twice |
| Accept.AcceptLogsAreCalls | internal/reactor/listener.go:49-135 | the logs are the calls: what a worker accepted and what TakeTCPAccept returned |
| Accept.AcceptNeverStalls | internal/reactor/listener.go:17-135 | on an open listener a waiter never stalls |
| Accept.NoAcceptWakeupLost | internal/reactor/listener.go:17-135 | on an open listener no wakeup is lost although TakeTCPAccept does not signal |
| Accept.UntoldByCloseHandleOnly | internal/reactor/reactor.go:234-244 | a step leaves a waiter with an answer it cannot learn of if and only if it closes the waiter's listener while that has nothing for it and no signal is present or promised |
| Accept.AllToldUnlessStranded | internal/reactor/reactor.go:226-257 | over a whole run every waiter with an answer can learn of it if and only if no listener is closed in that way |
| Accept.CloseHandleStrandsWaiter | internal/reactor/reactor.go:234-244 | a run in which closing a listener leaves a waiter without any signal |
| PacketSink.PacketsConserved | internal/reactor/packet.go:58-159 | the queue stays within its capacity, and received then queued packets are the accepted ones |
| PacketSink.PacketLogsAreCalls | internal/reactor/packet.go:58-159 | the logs are the calls: what TryPacketWrite accepted and what ReceivePacket returned |
| PacketSink.NotReadyMeansFull | internal/reactor/packet.go:79-118 | a write waiter that is not ready waits for a full sink |
| PacketSink.NoPacketWakeupLost | internal/reactor/packet.go:79-159 | a ready write waiter has had a token received since, or the token is present or owed |
| PacketSink.MissedByCheckOnly | internal/reactor/packet.go:120-159 | a step makes a sleeping receiver miss a packet if and only if another receiver takes one of two or more with no token present or owed and no third about to look |
| PacketSink.ServedUnlessDeserted | internal/reactor/packet.go:120-159 | over a whole run no receiver misses a packet if and only if no step is of that kind |
| PacketSink.OnePacketSinkServesAll | internal/reactor/packet.go:58-159 | on a sink for one packet nobody misses one, with any number of receivers |
| PacketSink.SingleReceiverNeverMisses | internal/reactor/packet.go:120-159 | a receiver that has the sink to itself never misses a packet |
| PacketSink.SecondSleeperCanMiss | internal/reactor/packet.go:120-159 | after any run that leaves two receivers asleep on an idle sink with room for two packets, a continuation makes one of them miss a packet |
| PacketSink.TwoReceiversMiss | internal/reactor/packet.go:128-143 | there is such a run: a receiver sleeps beside a queued packet and nobody is to wake it |
| Sockets.WakeAll | internal/reactor/udp.go:173-180 | the loop marks exactly the waiters of the handle and says whether there was one |
| Sockets.DatagramState.StartReceive | internal/reactor/udp.go:124-138 | readiness and the start of the worker, on the socket's own fields |
| Sockets.DatagramState.PublishReceive | internal/reactor/udp.go:166-189 | one turn of the receive worker under the lock |
| Sockets.DatagramState.TakeReceive | internal/reactor/udp.go:214-260 | the take, truncating only after the datagram has left the queue |
| Sockets.DatagramState.TrySend | internal/reactor/udp.go:262-283 | the four answers of TryUDPSend and the queue after it |
| Sockets.DatagramState.CloseNow | internal/reactor/udp.go:58-63 | channel and socket are closed |
| Sockets.DatagramState.DrainSends | internal/reactor/udp.go:65-106 | on a closed channel everything queued is written, in order, before the socket closes, the waiters of the handle are woken, and there is one signal a datagram if any waits |
| Sockets.ListenerState.StartAccept | internal/reactor/listener.go:27-38 | readiness and the start of the worker |
| Sockets.ListenerState.PublishAccept | internal/reactor/listener.go:61-66 | the worker's result is stored and its flag cleared |
| Sockets.ListenerState.TakeAccept | internal/reactor/listener.go:89-135 | the take, and when it starts the next worker |
| Sockets.Sink.TryWrite | internal/reactor/packet.go:58-77 | a packet joins unless the queue is full |
| Sockets.Sink.TryReceive | internal/reactor/packet.go:128-143 | the oldest packet leaves, and exactly the write waiters of the handle are marked ready |
| Wakeup.WakeupNeverLost | internal/engine/host.go:275-297 | from a signal until an instance registered or being created at that time next notifies its core, the wakeup is in the reactor's channel, with the broadcaster, in the instance's channel or being served, unless the driver ended or the host was cancelled |
| Wakeup.NeverGoesBack | internal/engine/instance.go:269-363 | no step of any thread moves a wakeup back a hop |
| Wakeup.SomeThreadMovesIt | internal/engine/host.go:131-216 | as long as it is on its way some thread can take a step that delivers it or brings it nearer |
| Wakeup.Host.Broadcast | internal/engine/host.go:275-297 | one round fills the slot of every instance |
| Outcomes.AtMostOneOutcome | internal/engine/dataplane.go:356-394 | no result channel sees a second send, so none blocks, and what is sent is what the guest reported under that id and kind, or the closing error |
| Outcomes.ExactlyOneOutcome | internal/engine/dataplane.go:356-435 | once the driver has ended a submission has had exactly one outcome if and only if its id was not handed out again while pending |
| Outcomes.LostOnlyByReissue | internal/engine/dataplane.go:303-322 | a submission is lost exactly in runs where the guest reissues a pending id |
| Outcomes.ReissueLosesTheFirst | internal/engine/dataplane.go:303-322 | a run in which the first of two submissions with one id gets nothing |
| Outcomes.CancelHitsItsOwn | internal/engine/dataplane.go:323-335 | among any number of callers a cancel finds the entry of its own submission if and only if an entry is there and the id was not handed out again since |
| Outcomes.CancelCanReachAnother | internal/engine/dataplane.go:198-210 | a run after which the cancel of an answered submission reaches the newer one under its id |
| Outcomes.EndingAnswersAll | internal/engine/instance.go:257-267 | whatever ends the driver, what is still pending gets net.ErrClosed and the rest keeps its outcome |
| Outcomes.ExactlyOneResponse | internal/engine/rpc.go:162-228 | the same for RPCs, where a freed id also gets none |
| Outcomes.Operations.Register | internal/engine/dataplane.go:303-322 | a submission opens its channel and takes over the id |
| Outcomes.Operations.DrainBatch | internal/engine/dataplane.go:356-394 | the loop delivers up to the first bad record and asks for more after a full good batch |
| Outcomes.Operations.FailPending | internal/engine/dataplane.go:430-435 | in any order, every pending submission gets the one error |
| Outcomes.Operations.TakeResponses | internal/engine/rpc.go:202-221 | in any order, ready responses are delivered, and an error stops the loop with the rest untouched |
| CancelRace.AnswerIsTrue | internal/engine/dataplane.go:118-245 | an outcome returned is the operation's own, an error is the core's refusal, net.ErrClosed means closing or finished, and the context's error means nothing was submitted or the operation was cancelled |
| CancelRace.CancellationKeepsTheOutcome | internal/engine/dataplane.go:193-245 | a submitted call on a live instance whose cancel was not refused returns the operation's own outcome |
| CancelRace.SuccessIsReported | internal/engine/dataplane.go:235-245 | a success is never replaced by a cancellation error |
| CancelRace.CancelNamesTheOperation | internal/engine/dataplane.go:193-202 | the core is asked to cancel the id that was submitted and no other |
| CancelRace.NeverWaitsInVain | internal/engine/dataplane.go:118-233 | whatever the call waits for is in its channel or has a sender that still owes it |
| PacketBatch.JoiningArePackets | internal/engine/instance.go:365-388 | only packets join a batch, and at most 32 make one |
| PacketBatch.OneResponseEach | internal/engine/instance.go:365-422 | each packet of the batch gets one response, in order, and the command behind it gets one if and only if the batch's drive did not fail |
| PacketBatch.FollowerUnanswered | internal/engine/instance.go:365-422 | a queue whose second command is taken and never answered |
| PacketBatch.Driver.Collect | internal/engine/instance.go:365-388 | the drain takes the longest run of packets that fits, and at most one command behind it |
| PacketBatch.Driver.AnswerBatch | internal/engine/instance.go:389-408 | the two loops over a batch give each command its own error or the one drive's, and drive exactly if some command was accepted |
| PacketBatch.Driver.HandlePacketBatch | internal/engine/instance.go:365-422 | the loops send exactly those responses, take exactly those commands, and drive once for the batch and once for the command behind it |
| AeadCache.PaddedKeysDiffer | internal/hostabi/crypto.go:74-82 | two supported requests with one cache key are the same request |
| AeadCache.MissEvictsOldest | internal/hostabi/crypto.go:101-108 | a miss on a full cache drops the oldest key and no other |
| AeadCache.SurvivesItsTurn | internal/hostabi/crypto.go:101-108 | the key at position i survives any i lookups |
| AeadCache.Cache.Get | internal/hostabi/crypto.go:70-110 | every lookup returns what the uncached function returns, and the ring is the queue of the last 64 insertions, equal to the map's keys |
| UdpWire.DecodeInvertsEncode | internal/hostabi/udp_wire.go:11-113 | decoding an encoding gives the input back, up to the 16-byte form of IPv4 and the dropped zone of an IPv4 peer, if and only if the interface table finds the peer's zone again under its index |
| UdpWire.EncodeInvertsDecode | internal/hostabi/udp_wire.go:11-113 | accepted bytes are encoded back if and only if they carry no flow info, no IPv4-mapped address under family 6, and a scope that the interface table finds again under its name |
| UdpWire.EncodeUDPMetadata | internal/hostabi/udp_wire.go:11-62 | for any interface table the in-place encoder writes the specified 48 bytes or reports the first thing wrong |
| UdpWire.PutPeer | internal/hostabi/udp_wire.go:19-40 | the peer's 27 bytes, with the errors in the encoder's order |
| UdpWire.IsAllZero | internal/hostabi/udp_wire.go:115-122 | the loop decides whether all bytes are zero |
| DnsWire.DecodeDNSQuery | internal/hostabi/dns_wire.go:18-70 | the decoder succeeds on exactly the encodings of well-formed queries, returns that query, and indexes nothing out of range |
| DnsWire.OneQueryPerEncoding | internal/hostabi/dns_wire.go:18-70 | no byte string encodes two queries |
| Manager.WebLeavesApplicationsAlone | internal/host/management.go:201-501 | no step of a Web request removes or alters an application's entry |
| Manager.ApplicationEntriesStay | internal/host/management.go:201-501 | an application's entry stays as it is over any run until the application gives it up |
| Manager.SuccessLeavesTheSkipped | internal/host/management.go:442-501 | what a successful retain or delete leaves of what it should have closed is exactly what its closes skipped under an ended context |
| Manager.SuccessfulCloseLeavesNone | internal/host/management.go:442-501 | a retain or delete that succeeds under a live context leaves no Web entry it should have closed |
| Manager.LateContextLeavesStray | internal/host/management.go:494-501 | a run in which the context ends inside a close and a retain reports success over a Web entry still in the table |
| Manager.FailedOverwriteRestores | internal/host/management.go:230-262 | a failed overwrite whose restore succeeds leaves the id with its old configuration, TOML and source |
| Manager.SuccessfulRunRegisters | internal/host/management.go:240-305 | a run that succeeds registers what was asked, under the source named, or the previous one, or the user's |
| Manager.PatchChangesWhatItNames | internal/host/management.go:307-440 | a patch changes one Web entry and only the configuration fields it names |
| Manager.UuidStringInjective | internal/host/management.go:729-743 | two instance ids never share a table key |
| Manager.InstanceManager.RegisterEntry | internal/host/management.go:63-72 | a used id is refused and nothing changes |
| Manager.InstanceManager.RemoveEntry | internal/host/management.go:74-81 | only the entry of that very instance is removed |
| Manager.InstanceManager.CloseManaged | internal/host/management.go:494-501 | a close removes the entry only under a live context and forgives an engine that had failed before |
| Manager.InstanceManager.CloseWebInstances | internal/host/management.go:478-492 | exactly which entries are gone after the loop, and when it fails |

## Left out

- Outside the reactor: real sockets, DNS, interface lookup, AES-GCM, UTF-8, the WebAssembly guest and its memory are oracles, opaque types or given predicates.
- Timers, deadlines, error texts, and the mapping of data-plane errors to system errors: settled by one branch each.
- Event sinks and the event journal: they take no part in completions.
- The Web client: a simpler copy of the instance driver; in a broadcast it is one more slot to fill.
- Scheduler fairness: in its place there are invariants, and for wakeups a measure that some thread can always lower.
- Pointer identity: objects are numbered in the order they are made, and equal numbers stand for equal pointers.
- `request.data = nil` on a finished write: the model keeps the data, which nothing reads again.
- The sockets a reactor can be created with for tests: runs start with none.
- Configuration checks at the head of each Start call (a missing factory, resolver or handler): they return before anything is claimed.
- Ownership.OneOwner: stated for runs shorter than the number of handles left after the first, since handles repeat when 64 bits wrap around; the other Ownership theorems share the bound.
- Ownership: which waiter an accepted connection goes to, and when an accept worker may start, are in the accept model; here one may start at any time.
- Outcomes.AtMostOneOutcome: the caller's side of the channel is in the cancellation model, one call at a time.
- CancelRace: the RPC calls, whose protocol is the same but for freeing in place of cancelling, and the calls that close a resource or set a deadline.
- CancelRace.CancelNamesTheOperation: follows one call; what the id stands for when the cancel arrives, among several callers, is `Outcomes.CancelHitsItsOwn`.
- CancelRace.CancellationKeepsTheOutcome: ids are assumed not to be reissued while the call is pending.
- PacketBatch.Driver.HandlePacketBatch: commands that arrive while the batch is being drained are taken as already queued, and what handling a command returns is a function of the command.
- Reactor.Reactor.CancelOperation: takes the object out of its map; what leaving a queue does to a stream is in the stream models, and what becomes of the socket of a pending create is in `Ownership`.
- Reactor.Reactor.CloseTables: goes as far as the unlock; closing what it hands on, and waiting for the workers, is in `Ownership`.
- Sockets.DatagramState.DrainSends: nobody starts or cancels a wait while the loop runs; the interleavings are in `UdpSend`.
- UdpWire.EncodeUDPMetadata: the partly filled buffer that is returned beside an error is not described.
- The DNS answer encoders and the size limit on answers.
- Manager: protobuf envelopes, the read-only requests, and the order in which a snapshot is sorted; closing takes the entries in any order.
- Manager.PatchChangesWhatItNames: the two RPCs of a patch are one answer given to its last step.
