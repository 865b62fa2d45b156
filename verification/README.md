# A verified model of peerclaw-agent

peerclaw-agent lets agents talk to each other peer to peer. These Dafny files model its
stateful cores and prove, for all inputs and all runs, what they promise. `dafny verify
dfyconfig.toml` checks everything.

| file | part of the system |
|---|---|
| Basics.dfy | results, machine integers, byte strings, durations in nanoseconds |
| FrameCodec.dfy | the binary frames of the file-transfer channel |
| ChunkCipher.dfy | sealing of chunks and their associated data |
| TransferState.dfy | the lifecycle of a transfer |
| TransferManager.dfy | the handlers of the file-transfer manager |
| ChunkStream.dfy | the send loop and the reassembling receiver, with resume |
| Acknowledgements.dfy | what is acknowledged, and where a sender resumes |
| WireStream.dfy | the chunk stream through the frame codec |
| TransferProtocol.dfy | the messages and steps of the two parties, as a state machine: safety |
| TransferDelivery.dfy | the same steps: bytes are conserved, and no false alarms |
| DeliveryPossible.dfy | the same steps: from where a transfer can still be completed |
| TransferOutcomes.dfy | the same steps: which events end a transfer, and how |
| ThirdParties.dfy | the protocol among other agents, every message with its source |
| ThirdPartyChannels.dfy | data channels that other agents open |
| Backpressure.dfy | the send token and the low-water callback |
| MessageCache.dfy | the bounded offline cache with expiry |
| CacheDelivery.dfy | what a flush of the cache returns |
| Outbox.dfy | the retrying outbox, with its unlocked sweep |
| OutboxHistory.dfy | what a sweep keeps, drops and retries |
| RelayPool.dfy | the relay pool with least-recently-used eviction |
| RelayConnections.dfy | which connections the pool returns and closes |
| Deduplication.dfy | remembering keys for a retention period |
| MessageValidation.dfy | replay protection of messages |
| SlidingWindow.dfy | rate limiting over a sliding minute |
| TrustStore.dfy | trust levels, expiry, import and the change callback |
| Reputation.dfy | exponentially weighted scores |
| ReputationGossip.dfy | second-hand reputation claims |
| ConnManager.dfy | negotiation of connections and registration of peers |
| ConnHistory.dfy | who is registered and who is pending |
| Glare.dfy | many agents that may offer to each other at once |
| IceSort.dfy | ordering of ICE candidates |

Each stateful part has the same shape. The operations are functions on values; a class with the
source's fields has methods proved equal to these functions; runs are sequences of actions; and
the theorems speak about every run. Clock readings, random values, outcomes of I/O and decisions
taken elsewhere enter as parameters of the actions. A region the source holds a lock for is one
step. Map iteration visits keys in an order left open. Strings compare and count by byte.

Idealisations: a signature is a value that names its signer and what was signed; a sealed chunk
is a value that opens only under the same key and associated data; different files have
different digests; scores are real numbers.

## Where the code and its comments differ

The model follows the code.

- The trust level that gossip needs is compared as a number, and blocked ranks above verified,
  so claims of blocked issuers pass that check (`TrustedEnoughToGossip`).
- The handlers of the file-transfer manager verify under the key of a message's source and never
  compare the source with the peer of the transfer. Any other trusted agent that knows the file
  ID can answer an offer, complete a transfer or fail one (`AcceptEnters`, `CompletionFinishes`,
  `ThirdPartyFinishes`, `ThirdPartyFails`).
- Nor is the opener of an incoming data channel compared (manager.go:520-551). A second channel
  truncates the output (receiver.go:56), its FIN frame carries no authentication, and its frames go
  on being written after the transfer is Done (`StrangeChannelFails`,
  `StrangeChannelOverwrites`). The agent keeps the handler for such channels (agent.go:208-215);
  who calls it is not part of this model.
- Agreement, final outcomes and the absence of false alarms hold for the runs in which each
  message and each channel comes from the record's peer, comparisons that a caller can make before
  it dispatches, and in which nothing else writes to the output path (`ThirdPartyChannels.Proper`).
  The last is not automatic: the path is made from the file name alone (manager.go:236), so two
  transfers with the same name write to the same file.
- An empty file is announced as one chunk and sent as none (`DataFrameCount`).
- The relay pool's limit of 50 can be passed: reconnecting a cached URL leaves a stale entry in
  the order, and evicting a stale entry frees nothing (`PoolBound`, `PoolBoundAttained`).
- The FIN frame is sent without a test of the buffered amount, and the two-frame bound on the
  overshoot holds when low-water callbacks run before the sender's next step; otherwise each
  outstanding callback adds a frame (`BufferBound`, `BufferBoundAttained`).
- Cancelling a transfer in state Completing is refused by the transition table; the error text is
  left behind, and its sender and receiver are stopped (`Cancel`).
- A resume request assigns the state past the table, so it can revive a finished transfer
  (`ResumeBypassesTable`); resuming at number 2^32 - 1 starts from the beginning
  (`ResumeDropsConfirmed`).
- First use reports an expired entry as first-use trust until it is cleaned (`ExpiredFirstUse`),
  and setting first-use trust again keeps an old expiry (`FreeingSetAllows`).
- A claim dated more than an hour ahead, or without ID or timestamp, can be applied again
  (`AppliedOnceExactly`).
- Role agreement between two offering agents holds without timeouts. With them both can end as
  answerers, if and only if the agent with the smaller ID may give up (`BothAnswerExactly`).

## Model

The rows marked as main results are the theorems; the others are the methods that tie the code to
them and the steps they rest on. A proper run is one in which each message and each data channel comes from
the peer of the record it is about, if there is one, and nothing else writes to the output path
(`ThirdPartyChannels.Proper`).

| member | source | states |
|---|---|---|
| FrameCodec.DecodeInvertsEncode | filetransfer/frame.go:30-62 | **Main result.** decoding an encoded frame followed by any bytes gives the frame back if and only if its payload fits the 32-bit length field and the truncated rest of the message covers it |
| FrameCodec.DecodeBelowLimit | filetransfer/frame.go:41-62 | every frame decodes, whatever trails it, while payload and trailing bytes stay below 2^32 |
| FrameCodec.EncodeInvertsDecode | filetransfer/frame.go:30-62 | **Main result.** re-encoding what was decoded gives the first 9 + length bytes of the message, also for messages longer than 2^32 bytes |
| FrameCodec.EncodingIsInjective | filetransfer/frame.go:30-38 | different frames never share an encoding |
| FrameCodec.Uint32RoundTrip | filetransfer/frame.go:33-34 | a number written big-endian is read back |
| FrameCodec.Uint32RoundTripBack | filetransfer/frame.go:46-47 | four bytes read as a number are written back |
| FrameCodec.WriteUint32 | filetransfer/frame.go:33-34 | writes the four bytes in place and leaves the rest of the buffer |
| FrameCodec.EncodeFrame | filetransfer/frame.go:30-38 | the encoding is a fresh buffer, so reusing the read buffer (filetransfer/sender.go:120-165) cannot change a frame already built |
| FrameCodec.DecodeFrame | filetransfer/frame.go:41-62 | the array code equals the decoding of the byte string, errors included |
| ChunkCipher.DecimalRoundTrip | filetransfer/sender.go:198-200 | the printed sequence number consists of digits and reads back as the number |
| ChunkCipher.UniqueLastBar | filetransfer/sender.go:198-200 | a string splits in one way only at its last bar |
| ChunkCipher.ChunkAADInjective | filetransfer/sender.go:198-200 | **Main result.** the associated data agree if and only if file ID and sequence number agree, also for IDs that contain bars |
| ChunkCipher.OpensOnlyWhereSealed | filetransfer/sender.go:203-231 | a chunk opens at a position to a plaintext if and only if it was sealed there from that plaintext under that key |
| ChunkCipher.NoSplicing | filetransfer/receiver.go:91-102 | **Main result.** a chunk sealed for one transfer and number opens for no other, and under no other key |
| TransferState.TerminalIffStuck | filetransfer/state.go:32-41 | the three final states are exactly those that no request leaves |
| TransferState.LifecycleIsOneWay | filetransfer/state.go:113-124 | **Main result.** over any sequence of transition requests a finished transfer keeps outcome and completion time, and an unfinished one only moves forward |
| TransferState.AtMostFiveTransitions | filetransfer/state.go:32-55 | no transfer makes more than five transitions, however many are requested |
| TransferState.Transfer.constructor | filetransfer/state.go:99-110 | a new transfer is idle and active from now |
| TransferState.Transfer.Transition | filetransfer/state.go:113-124 | grants exactly the table's transitions; a refused request changes nothing |
| TransferState.Transfer.IsTimedOut | filetransfer/state.go:132-138 | inactivity beyond the state's timeout, and never in a state without one |
| TransferManager.CompletionOrderIrrelevant | filetransfer/manager.go:433-470 | from Transferring, the sender's own Completing step and a verified completion message lead to Done in either order |
| TransferManager.ResumeBypassesTable | filetransfer/manager.go:505-508 | the resume handler agrees with the transition table in exactly two states, and leads out of finished ones |
| TransferManager.Manager.InitiateSend | filetransfer/manager.go:129-209 | files an offered record under a fresh ID, and drops it again if the offer cannot be sent |
| TransferManager.Manager.HandleFileOffer | filetransfer/manager.go:212-286 | rejects untrusted peers without a record; otherwise signs the challenge and files an accepted record |
| TransferManager.Manager.HandleFileAccept | filetransfer/manager.go:289-360 | equals the specified answer to an accept: verification under the key of its source, both transitions, key, ready message to the source, and sender start; no other transfer changes |
| TransferManager.Manager.StartSender | filetransfer/manager.go:554-577 | registers a sender, or fails the transfer, with the error of a missing transport or of a channel that cannot be created |
| TransferManager.Manager.HandleFileReject | filetransfer/manager.go:363-386 | fails the transfer if the table allows it |
| TransferManager.Manager.HandleTransferReady | filetransfer/manager.go:389-431 | equals the specified answer to a ready message, verified under the key of its source; no other transfer changes |
| TransferManager.Manager.HandleTransferComplete | filetransfer/manager.go:434-470 | equals the specified answer to a completion, whatever its source, and removes the sender |
| TransferManager.Manager.HandleChunkAck | filetransfer/manager.go:473-488 | stores the acknowledged number and refreshes the activity time |
| TransferManager.Manager.HandleResumeRequest | filetransfer/manager.go:491-517 | assigns number and state directly and starts a sender |
| TransferManager.Manager.HandleIncomingDataChannel | filetransfer/manager.go:520-551 | takes a channel if and only if the transfer is known, incoming and transferring, whoever opened it |
| TransferManager.Manager.Cancel | filetransfer/manager.go:604-633 | an offered, accepted or transferring transfer is Cancelled now; finished ones are left alone, and in Completing the table refuses; sender and receiver of an unfinished transfer are removed |
| TransferManager.Manager.TimeoutTick | filetransfer/manager.go:636-669 | one tick fails every overdue transfer and changes no other, and removes exactly their senders and receivers |
| TransferManager.Manager.TickAll | filetransfer/manager.go:636-669 | the loop over all transfer objects does so for each of them, in any order |
| ChunkStream.SendLoop | filetransfer/sender.go:99-195 | for any splitting of the reads, emits the specified frames from the resume point and counts their bytes; an error leaves exactly the frames before it |
| ChunkStream.SendFrom | filetransfer/sender.go:120-186 | the loop over the reused buffer emits the frames of the file, numbered modulo 2^32, and the FIN frame, up to the error if there is one |
| ChunkStream.FrameAt | filetransfer/sender.go:130-169 | the k-th data frame carries the k-th read under the k-th number |
| ChunkStream.Receiver.OnMessage | filetransfer/receiver.go:72-125 | equals the specified handling of a frame: FIN, unflagged, undecryptable, unwritable and whole chunks, counters and acknowledgements |
| ChunkStream.Receiver.Finalize | filetransfer/receiver.go:148-202 | announces whether the digest matches and records the outcome |
| ChunkStream.PrefixAndConservation | filetransfer/receiver.go:107-119 | **Main result.** after any number of frames of any splitting the output is exactly the prefix sent, and received bytes plus bytes in flight are the bytes sent |
| ChunkStream.FreshTransferWritesFile | filetransfer/receiver.go:72-202 | **Main result.** a fresh transfer over an ordered, lossless channel writes exactly the file, announces it verified and ends Done, for any splitting of the reads |
| ChunkStream.FinDecides | filetransfer/receiver.go:148-202 | a FIN frame leaves output and counters alone, announces that the file is the one offered exactly if there was no digest or the file can be read back and has it, and ends a transfer under way accordingly |
| ChunkStream.UselessFrames | filetransfer/receiver.go:84-112 | frames neither FIN nor data are ignored; a chunk that does not open, or is written in part, counts nothing, and leaves in the output what was written |
| ChunkStream.ConsecutiveNumbers | filetransfer/sender.go:121-183 | numbers run consecutively through the FIN frame, modulo 2^32 |
| ChunkStream.FullReadsAreValid | filetransfer/manager.go:146-149 | reads that fill the buffer make up the file, and their number is the size divided by the chunk size, rounded up |
| ChunkStream.DataFrameCount | filetransfer/manager.go:146-149 | **Main result.** with full reads the number of data frames is the announced count if and only if the file is not empty |
| ChunkStream.ResumeWithinStream | filetransfer/sender.go:112-121 | resuming after frame k replays the original frames without the first k, FIN number included |
| ChunkStream.ResumeDropsConfirmed | filetransfer/sender.go:112-121 | **Main result.** it does so if and only if k is at most the number of data frames and k + 1 does not wrap around |
| Acknowledgements.ChunksAcknowledged | filetransfer/receiver.go:113-124 | after any number of chunks of any stream, exactly those whose number modulo 2^32 is a multiple of a hundred have been acknowledged, and the record notes the last number and the time |
| Acknowledgements.ResumesAfterAcknowledged | filetransfer/manager.go:473-517 | **Main result.** an acknowledgement, taken by the sender as such or from a resume request, makes it resume with exactly the frames after the acknowledged chunk |
| TransferProtocol.EitherOrderEndsDone | filetransfer/sender.go:179-188 | **Main result.** with the FIN sent and a verified completion waiting, the sender ends Done whichever of its step and the message runs first |
| DeliveryPossible.PossibleExactly | filetransfer/manager.go:129-551 | **Main result.** take any run of the two parties with one key and a working disk, under any loss, reordering, forgery, cancel, timeout and send failure: from where it leads, they can by themselves take each other to Done, with the file delivered, if and only if no side has failed or been cancelled, no offer, answer, ready message or completion has been lost while it was due, the sender did not enter under a foreign counter-challenge, its goroutine did not end without a FIN, and the channel was not closed before the receiver was Done |
| DeliveryPossible.DoomedForGood | filetransfer/manager.go:129-551 | once one of these has happened, no continuation without forgeries completes the transfer |
| DeliveryPossible.RunToTheEnd | filetransfer/sender.go:99-195 | while none has, a run to the end is constructed step by step, for a file of any length and any frames in flight |
| DeliveryPossible.ArrivalDecides | filetransfer/manager.go:520-540 | a channel that arrives spoils a transfer in which nothing has gone wrong if and only if the ready message has not been taken yet |
| TransferOutcomes.SenderMovesExactly | filetransfer/manager.go:129-669 | for every state and step, the sender's next state told by what arrives, what fails and how long it has been idle: rejections, signatures, completions, the channel, the stream, cancels and timeouts; and a side that ends notes the time |
| TransferOutcomes.ReceiverMovesExactly | filetransfer/receiver.go:51-202 | likewise the receiver's |
| TransferOutcomes.HowSendersEnd | filetransfer/manager.go:129-669 | **Main result.** after any run the sender is Done, Failed or Cancelled if and only if one of the events that end it so has happened |
| TransferOutcomes.HowReceiversEnd | filetransfer/receiver.go:51-202 | and likewise the receiver |
| TransferOutcomes.OutputMovesExactly | filetransfer/receiver.go:51-125 | for every state and step: the output is emptied when the receiver takes the channel, and grows by the chunks that open, as far as they can be written |
| TransferOutcomes.AcceptTeaches | filetransfer/manager.go:303-352 | a rightly signed accept leaves its counter-challenge in the sender's record, in any state, and the session key on entering only |
| TransferOutcomes.RunIdentified | filetransfer/manager.go:129-286 | in every run the sender's record is outgoing, to the receiver, with the digest of its file, and the receiver's incoming, from the sender |
| ThirdPartyChannels.Agreement | filetransfer/manager.go:288-551 | **Main result.** in every proper run, with any number of agents that post messages and open data channels of their own, under loss, reordering, forged messages of the two parties, cancels, timeouts and faults: a receiver that got to Transferring with the sender faces a sender that verified its signature and entered Transferring under its counter-challenge; a sender that got there is answered by this receiver; and whichever side is Done, the output is the sender's file |
| ThirdPartyChannels.OutcomesAreFinal | filetransfer/manager.go:288-551 | **Main result.** in every proper run finished sides stay as they are, others only move forward, and once the sender is Done the output never changes again |
| ThirdPartyChannels.OutcomesHaveCauses | filetransfer/manager.go:288-551 | in every proper run each side is Done, Failed or Cancelled if and only if one of the events that end it so is among the steps of the two parties |
| ThirdPartyChannels.CancelledForGood | filetransfer/manager.go:604-633 | **Main result.** in every proper run a side cancelled while offered, accepted or transferring is Cancelled from then on, whatever arrives later, so never Done |
| ThirdPartyChannels.NoFalseAlarm | filetransfer/receiver.go:51-202 | **Main result.** in every proper run with a shared key, and an output file that can be written and read back (so that nobody has closed it before the channel), no completion of the receiver is negative, and until the announcement output plus plaintext in flight is a prefix of the file as long as what was sent |
| ThirdPartyChannels.EveryFileCanBeDelivered | filetransfer/manager.go:288-551 | **Main result.** for every file, with or without a session key, some proper run takes both sides to Done with the file written |
| ThirdPartyChannels.RunIsTheirs | filetransfer/manager.go:288-551 | every proper run, third parties' channels included, is for the two parties a run of their own protocol |
| ThirdPartyChannels.StrangeChannelFails | filetransfer/manager.go:520-551 | **Main result.** the failing run: with any key, every file that is not empty and all messages in order, a channel of any other agent with only a FIN frame makes the receiver announce a negative completion and fail |
| ThirdPartyChannels.StrangeChannelOverwrites | filetransfer/receiver.go:51-125 | **Main result.** the failing run: without a session key, a frame on such a channel writes any bytes over the output after both sides are Done; it is still the file if and only if the bytes are a prefix of it |
| ThirdParties.RunIsSeen | filetransfer/manager.go:211-488 | with the check on sources, every run of messages among third parties is for the two parties a run of their own protocol, whose invariant it keeps |
| ThirdParties.RunIsLifted | filetransfer/manager.go:211-488 | and every run of the two parties alone is a run with the check |
| ThirdParties.EnteringMeansVerified | filetransfer/manager.go:303-332 | **Main result.** in every run, checked or not, a sender enters Transferring only from Offered, on an accept signed over its challenge by the source of that accept |
| ThirdParties.AcceptEnters | filetransfer/manager.go:303-352 | without any check: an offered transfer enters on an accept if and only if its own source signed it, else it fails; the answer goes to that source |
| ThirdParties.ReadyEnters | filetransfer/manager.go:403-421 | without any check: an accepted transfer enters on a ready message if and only if its own source signed it, else it fails |
| ThirdParties.CompletionFinishes | filetransfer/manager.go:440-459 | without any check: a completion from any source makes the sender Done if and only if it is positive in state Transferring or Completing (or it was Done), and fails every transfer under way if negative; the output has no say |
| ThirdParties.ThirdPartyFinishes | filetransfer/manager.go:289-470 | **Main result.** the failing run: any other agent answers the offer and completes the transfer, and the sender is Done though the receiver never heard of it and nothing was written |
| ThirdParties.ThirdPartyFails | filetransfer/manager.go:434-457 | the failing run: any other agent fails the transfer with a negative completion |
| ThirdParties.BorrowedSignatureEnters | filetransfer/manager.go:243-244 | the challenge a receiver signs is any text an offer asks for; an accept made from it would enter, but for the envelope's signature |
| ThirdParties.ReceiverNeverAnswers | filetransfer/manager.go:230-262 | in every run the receiver's records are past Offered, so that it never answers an accept |
| WireStream.EncodedStreamWritesFile | filetransfer/receiver.go:72-202 | **Main result.** a fresh transfer on the wire: the sender's frames, encoded, decoded and handled one by one, write exactly the file and end verified and Done, for any splitting of the reads, with or without a key |
| WireStream.StreamTravels | filetransfer/frame.go:30-62 | handling encoded frames is handling the frames, for every stream whose payloads fit the length field |
| Backpressure.NoLostWakeup | filetransfer/sender.go:49-57 | **Main result.** in every interleaving, a sender that is blocked with no token and no callback on its way still has more than 256 KB buffered |
| Backpressure.DrainingFreesSender | filetransfer/sender.go:153-160 | from every reachable blocked state, draining and running the callback frees the sender |
| Backpressure.BufferBound | filetransfer/sender.go:153-165 | **Main result.** the buffer never exceeds 1 MB plus c + 2 frames (plus the FIN frame) when at most c callbacks are outstanding as the sender moves; two frames when callbacks run promptly |
| Backpressure.BufferBoundAttained | filetransfer/sender.go:153-186 | **Main result.** for every c some run reaches that bound exactly |
| MessageCache.Cache.TotalPending | transport/message_cache.go:108-116 | the loop sums the lengths of all queues |
| MessageCache.Cache.Enqueue | transport/message_cache.go:48-77 | refuses at the global limit, else appends, dropping the oldest of a full queue |
| MessageCache.Cache.Flush | transport/message_cache.go:80-98 | removes the queue and returns its unexpired envelopes in order |
| MessageCache.Cache.KeepLive | transport/message_cache.go:137-144 | keeps the unexpired messages in order and counts the others |
| MessageCache.Cache.CleanExpired | transport/message_cache.go:130-152 | sweeps every queue, drops the empty ones, and returns how many messages went |
| MessageCache.CacheBounds | transport/message_cache.go:46-77 | **Main result.** in every reachable state at most 100 messages per destination and 10000 in total |
| CacheDelivery.FlushReturns | transport/message_cache.go:48-152 | **Main result.** in every run with a monotone clock, sweeps or not, a flush returns, in the order they came, exactly the envelopes accepted for the destination since it was last flushed that have not outlived their lifetime and are among the last hundred; messages are accepted while fewer than ten thousand are queued |
| CacheDelivery.FlushReturnsUnswept | transport/message_cache.go:48-98 | without sweeps the same whatever the clock does |
| MessageCache.CleaningIsInvisible | transport/message_cache.go:79-152 | **Main result.** for every run whose plain version never hits the global limit, removing all sweeps leaves every flush result the same, and sweeps cause no refusal |
| MessageCache.SweepShowsExactly | transport/message_cache.go:48-152 | **Main result.** from every reachable cache some continuation with a monotone clock has a flush that returns something else after a sweep than without it if and only if some queued message has expired |
| MessageCache.CleaningShowsAtLimit | transport/message_cache.go:52-59 | so sweeps do show at the limit: for every lifetime of messages some run with a monotone clock has flushes that return something else without its sweeps |
| MessageCache.CleanSimulates | transport/message_cache.go:130-152 | a sweep keeps the simulation: the swept queue is the other one without some expired messages at its head |
| MessageCache.EnqueueSimulates | transport/message_cache.go:48-77 | so does an enqueue, with its drop of the oldest message |
| MessageCache.FlushSimulates | transport/message_cache.go:80-98 | and a flush, with equal results |
| Outbox.Box.Append | transport/mailbox.go:417-430 | appends an unconfirmed entry due in five seconds |
| Outbox.Box.ConfirmDelivery | transport/mailbox.go:633-643 | marks the first entry with the ID and no other |
| Outbox.Box.BeginSweep | transport/mailbox.go:691-721 | keeps exactly the unconfirmed, unexpired, unexhausted entries, and lists those due |
| Outbox.Box.RecordRetry | transport/mailbox.go:729-745 | counts the retry on the first entry with the ID and sets its next time |
| Outbox.BackoffDelay | transport/mailbox.go:733-740 | **Main result.** the doubling loop computes min(5 s * 2^r, 5 min) for every r |
| Outbox.EveryEntryAccountedFor | transport/mailbox.go:690-747 | **Main result.** in every interleaving each appended entry is either live or dropped for one of three reasons, never both, and nothing else is |
| Outbox.ConfirmationsAreKept | transport/mailbox.go:633-643 | **Main result.** a confirmation is never lost to a sweep's stale copy: the live entry carries it, and entries are dropped as confirmed exactly if they were confirmed |
| Outbox.RetryDiscipline | transport/mailbox.go:723-747 | **Main result.** at most ten retries of an entry, the waiting time between any two, and none after one that was made when the entry was already confirmed |
| Outbox.RunKeepsInv | transport/mailbox.go:690-747 | every interleaving of sends, confirmations, sweep phases and waiting keeps the invariant behind these |
| OutboxHistory.SweepExactly | transport/mailbox.go:690-721 | **Main result.** from every reachable state between sweeps: a sweep keeps exactly the live entries that are unconfirmed, unexpired and have had fewer than ten attempts, and lists exactly those whose waiting time is over, in numbers |
| OutboxHistory.ExpiryDiscipline | transport/mailbox.go:417-747 | **Main result.** over every run: a live entry has seen no sweep past its expiry (append time plus lifetime); no attempt belongs to a sweep begun past it; an entry is dropped as expired if and only if it is unconfirmed and the sweep that drops it is the first begun past it; one dropped as exhausted has had ten attempts; a confirmed one goes with the next sweep |
| OutboxHistory.KeptInOrder | transport/mailbox.go:690-747 | entries stay, and are retried, in the order they were appended in |
| RelayPool.LivePool.GetRelay | transport/mailbox.go:110-147 | equals the specified request: hit, dial, eviction with closing, failure |
| RelayPool.LivePool.MoveToEnd | transport/mailbox.go:116-122 | moves the first occurrence of the URL to the end of the order |
| RelayPool.CachedUrlsAreOrdered | transport/mailbox.go:134-146 | **Main result.** in every reachable state, reconnections included, each cached URL occurs in the order |
| RelayPool.PoolBound | transport/mailbox.go:134-146 | **Main result.** at most 50 relays plus one for each reconnection |
| RelayPool.PoolBoundAttained | transport/mailbox.go:134-146 | **Main result.** for every n some run reconnects n times and ends with 50 + n relays |
| RelayPool.WhenThePoolOverflows | transport/mailbox.go:134-146 | a request takes a full pool past its size if and only if it adds a new URL while the oldest entry of the order is stale |
| RelayPool.CacheIsLeastRecentlyUsed | transport/mailbox.go:110-147 | **Main result.** while cached relays stay connected the order is the key set without duplicates, and a URL is cached if and only if it was used and fewer than 50 distinct others were used since |
| RelayConnections.AnswersItsUrl | transport/mailbox.go:110-147 | **Main result.** in every run a request is answered if and only if its relay is cached and connected or can be dialled, and with the latest connection made to its own URL |
| RelayConnections.EveryConnectionAccountedFor | transport/mailbox.go:125-147 | **Main result.** every connection made in a run is cached, or was closed, or was given up disconnected for a new one to its URL: each time exactly one of these |
| RelayConnections.ClosesTheOldest | transport/mailbox.go:134-142 | what a request closes is the connection of the oldest URL of a full pool, if that is cached, and only when it dials |
| RelayConnections.ClosedStaysAway | transport/mailbox.go:110-147 | **Main result.** with distinct connections none is closed twice, and none that was closed is returned again |
| RelayPool.HitKeepsMostRecent | transport/mailbox.go:114-123 | a hit keeps the order sorted by last use |
| RelayPool.MissKeepsMostRecent | transport/mailbox.go:129-146 | so does a dial with its eviction |
| Deduplication.AdmittedApart | security/message.go:60-66 | over any run of offers and sweeps, two admissions of a key are more than the retention period apart |
| Deduplication.StampAdmittedOnce | security/message.go:44-66 | with a retention of at least twice the clock skew, a key and timestamp are admitted once |
| Deduplication.RetentionSufficesExactly | security/message.go:12-21 | **Main result.** a retention period excludes double admission within a span in all runs if and only if it is at least as long |
| Deduplication.HeldWasAdmitted | security/message.go:60-66 | every key held was admitted by a step at the time held |
| Deduplication.HeldExactly | security/message.go:60-100 | whatever the clock does, a key is held after a run if and only if some step admitted it and no sweep since was more than the retention period later |
| Deduplication.Forget | security/message.go:94-99 | the sweep's loop over the map, in any order, keeps exactly the entries at or after the cutoff |
| MessageValidation.MessageValidator.ValidateMessage | security/message.go:38-87 | all nine refusals in order, and the nonce recorded even when the signature then fails |
| MessageValidation.MessageValidator.CleanExpiredNonces | security/message.go:90-100 | forgets exactly the nonces first seen more than five minutes ago |
| MessageValidation.NoReplay | security/message.go:38-100 | **Main result.** in every run of validations and sweeps no two accepted envelopes share nonce and timestamp |
| MessageValidation.EachSigningAcceptedOnce | security/message.go:38-87 | **Main result.** what is accepted was signed as it is by the sender, and no signing is accepted twice |
| MessageValidation.AcceptedExactly | security/message.go:38-87 | **Main result.** in every run exactly the well-formed, fresh envelopes are accepted that a sender with a known, readable key has signed as they are, and whose nonce is not held |
| MessageValidation.NonceHeldExactly | security/message.go:60-100 | a nonce is held if and only if a well-formed envelope brought it while it was not held, and no sweep since was more than five minutes later |
| MessageValidation.DuplicatesHaveACause | security/message.go:61-66 | a duplicate refusal goes back to an earlier well-formed envelope with the nonce |
| MessageValidation.NonceHeldFiveMinutes | security/message.go:61-66 | a recorded nonce is refused for five minutes |
| MessageValidation.AfterIsDeduplication | security/message.go:60-99 | the nonce table is a deduplication table with five minutes of retention |
| SlidingWindow.RateLimiter.CheckIssuerRate | security/reputation_gossip.go:132-154 | the loop keeps the timestamps of the last minute, and admits below ten |
| SlidingWindow.AtMostTenAMinute | security/reputation_gossip.go:132-154 | **Main result.** for any calls with a monotone clock every minute, wherever it starts, holds at most ten accepted calls of an issuer |
| SlidingWindow.RefusedExactlyWhenFull | security/reputation_gossip.go:147-150 | **Main result.** a call is refused if and only if exactly ten were accepted in the minute before it |
| SlidingWindow.NextAllowedExactly | security/reputation_gossip.go:132-154 | the next call of an issuer is allowed if and only if fewer than ten were in the minute before it |
| SlidingWindow.NotedStaysFaithful | security/reputation_gossip.go:139-153 | the kept timestamps agree with the full history over the last minute after every call |
| ReputationGossip.ReputationGossip.ProcessClaim | security/reputation_gossip.go:95-128 | equals the specified processing: trust, issuer, age, duplicate, rate, blend; and returns whether the claim was applied |
| ReputationGossip.ReputationGossip.CleanSeenClaims | security/reputation_gossip.go:158-166 | forgets exactly the claims first seen more than two hours ago |
| ReputationGossip.NotAppliedAgain | security/reputation_gossip.go:107-117 | in every run a claim with an ID, dated at most an hour after its first application, is never applied again |
| ReputationGossip.AppliedOnceExactly | security/reputation_gossip.go:107-117 | **Main result.** a claim can be applied again in some run if and only if it has no ID, no timestamp, or one more than an hour ahead |
| ReputationGossip.AppliedExactly | security/reputation_gossip.go:95-128 | **Main result.** in every run exactly the claims are applied of an issuer of level two or more, not of the agent itself, undated or at most an hour old, with no ID or one not seen, and with fewer than ten of that issuer applied in the minute before |
| ReputationGossip.SeenIsDeduplication | security/reputation_gossip.go:112-117 | the seen claims are a deduplication table with two hours of retention |
| ReputationGossip.TenAppliedAMinute | security/reputation_gossip.go:119-127 | **Main result.** in every run no minute holds more than ten applied claims of one issuer |
| ReputationGossip.ScoresFollowTold | security/reputation_gossip.go:124-125 | the store changes by its other uses and by applied claims only |
| ReputationGossip.GossipKeepsRange | security/reputation_gossip.go:124-125 | whatever scores claims report, every score stays between 0 and 1 |
| ReputationGossip.TrustedEnoughToGossip | security/reputation_gossip.go:96-100 | the numeric trust check lets through verified, pinned and blocked issuers, and no others |
| TrustStore.TrustStore.Check | security/trust.go:150-163 | the stored level, or unknown if absent or expired |
| TrustStore.TrustStore.TrustOnFirstUse | security/trust.go:170-192 | known peers keep their entry; new ones are trusted for thirty days, with one callback |
| TrustStore.TrustStore.SetLevel | security/trust.go:196-233 | follows the transition table, keeps first-seen time and expiry, remembers blocks, and calls back on a change |
| TrustStore.TrustStore.Remove | security/trust.go:279-292 | removes the entry with one callback |
| TrustStore.TrustStore.Clean | security/trust.go:297-310 | removes exactly the expired entries, with one callback each in the order visited |
| TrustStore.TrustStore.ImportEntries | security/trust.go:322-348 | all or nothing on levels; adds exactly the new keys, with one callback each in the order visited |
| TrustStore.LevelsInRange | security/trust.go:328-333 | the validation loop accepts exactly if every level is in range |
| TrustStore.TrustStore.IsAllowed | security/trust.go:236-239 | the three allowed levels |
| TrustStore.TrustStore.IsAllowedWithReputation | security/trust.go:450-463 | allowed, and not malicious if a reputation store is set |
| TrustStore.LogIsFaithful | security/trust.go:165-348 | **Main result.** for every run from the empty store, replaying the callbacks gives the stored level of every key, and each callback's old level is the replayed one before it, whatever order maps are visited in |
| TrustStore.DeparturesMirror | security/trust.go:302-309 | the callbacks of a cleaning, in any order, replay to the cleaned store |
| TrustStore.ArrivalsMirror | security/trust.go:338-346 | the callbacks of an import, in any order, replay to the merged store |
| TrustStore.StepContains | security/trust.go:215-219 | a step leaves a blocked peer contained if and only if it is neither a removal nor a successful step to an allowed level |
| TrustStore.BlockedStaysOut | security/trust.go:165-348 | **Main result.** after a successful block, in every continuation without these, the entry stays, remembers the block, and is not allowed at any time or reputation |
| TrustStore.FreeingSetAllows | security/trust.go:94-97 | the freeing step leads from unknown only, and does allow the peer, except one set to first-use trust whose old expiry has passed |
| TrustStore.SetExactly | security/trust.go:66-110 | a setting takes effect if and only if it is one of the listed moves between levels, or none; it changes the level only, remembers a block, and calls back exactly for a move |
| TrustStore.StoreOperations | security/trust.go:170-348 | first use adds unknown peers, trusted for thirty days; cleaning drops exactly the first-use entries past their expiry; an import with named levels only adds exactly the peers not there, as given |
| TrustStore.TrustOnlyRises | security/trust.go:66-110 | **Main result.** without a block or removal a verified peer stays verified or becomes pinned and a pinned one stays pinned, whatever is set, cleaned or imported |
| TrustStore.AllowedExactly | security/trust.go:236-239 | exactly known peers of level first use (until it expires), verified or pinned; with a reputation store only from a score of 0.15, unknown ones counting as 0.5 |
| TrustStore.MarksAreLatest | security/trust.go:242-262 | while a peer stays in the store, when it was last seen and its alias are the latest that were set |
| TrustStore.RemovalForgetsTheBlock | security/trust.go:279-292 | after a removal the next first use is trusted again, for thirty days |
| TrustStore.CleaningAndChecks | security/trust.go:297-310 | a cleaning changes a check exactly for the entries it removes and only at times before they expire, so never later |
| TrustStore.ExpiredFirstUse | security/trust.go:174-181 | first use and check disagree on a known peer if and only if its first-use trust has expired |
| Reputation.ReputationStore.RecordEvent | security/reputation.go:64-90 | equals the specified update of the peer's entry; unlisted behaviours change nothing |
| Reputation.ReputationStore.SetScoreInternal | security/reputation.go:125-151 | sets a first score clamped, blends a later one |
| Reputation.ReputationStore.ApplyGossipScore | security/reputation.go:156-172 | blends by the weight and clamps |
| Reputation.ReputationStore.IsMalicious | security/reputation.go:93-107 | the score, neutral if unknown, is below the threshold |
| Reputation.ClosedForm | security/reputation.go:85-87 | **Main result.** after any behaviours the score is the faded start plus the weighted sum of their values |
| Reputation.FadedIsPower | security/reputation.go:85-87 | fading n times is multiplying by 0.9 to the n |
| Reputation.UnlistedIgnored | security/reputation.go:65-68 | unlisted behaviours leave no trace |
| Reputation.ClampNeverFires | security/reputation.go:86-87 | from a score in range no behaviour makes the clamp act |
| Reputation.GossipClampNeedsRange | security/reputation.go:169-170 | nor does gossip whose score and weight are in range |
| Reputation.Contraction | security/reputation.go:85-87 | **Main result.** two runs on the same behaviours draw together by 0.9 at each |
| Reputation.DrawnToRest | security/reputation.go:24-31 | a behaviour that goes on draws the score by a tenth of the distance each time to its own level: 1, 0.4, 0.35, 0.25, 0.15 or 0.1 |
| Reputation.ReportDrawsScore | security/reputation.go:156-172 | after any run a report draws the score towards it and leaves the part 1 - weight of the distance |
| Reputation.FourReportsCondemn | security/reputation.go:156-172 | **Main result.** with the default weight, reports of the lowest score turn an unknown peer malicious at exactly the fourth |
| Reputation.SettingDraws | security/reputation.go:125-151 | the first score is taken as it is, within range; a later one moves the score a tenth of the way; events are not counted |
| Reputation.TwentiethInvalidSignature | security/reputation.go:24-38 | **Main result.** from neutral, consecutive invalid signatures turn a peer malicious at exactly the twentieth |
| Reputation.MaliciousTakesTwenty | security/reputation.go:24-38 | **Main result.** no sequence of fewer than twenty behaviours does, and every one that does contains an invalid signature |
| Reputation.NeverWithoutInvalidSignature | security/reputation.go:24-38 | the other five behaviours never do, in any number and order |
| Reputation.TwoSuccessesClear | security/reputation.go:85-107 | two successes clear any peer; one clears it if and only if its score was at least 1/18 |
| Reputation.PeersAreIndependent | security/reputation.go:64-90 | a peer's entry depends on its own actions only |
| Reputation.ScoresStayInRange | security/reputation.go:121-172 | **Main result.** any interleaving of events, initial scores and gossip keeps every score between 0 and 1 |
| Reputation.StoreScoresBehaviors | security/reputation.go:64-102 | in a run of events the store holds each peer's score from neutral and its event count |
| Reputation.OnlyEarnedMalice | security/reputation.go:104-107 | in a run of events a peer reported malicious has at least twenty of its own, an invalid signature among them |
| ConnManager.LessIsTotal | conn/manager.go:298-298 | of two distinct IDs exactly one is the smaller, so both sides break a tie alike |
| ConnManager.Manager.StartConnect | conn/manager.go:126-215 | equals the specified start of a connection, and gives the caller the connection to wait for: a fresh one, or the pending one |
| ConnManager.Manager.BeginAnswer | conn/manager.go:286-310 | the tie-break: our offer stands exactly if we have one pending and the smaller ID; otherwise it is closed and replaced |
| ConnManager.Manager.HandleOffer | conn/manager.go:259-381 | equals the specified answer to an offer, including refusals and failures; other peers are untouched |
| ConnManager.Manager.HandleAnswer | conn/manager.go:384-427 | an answer is taken if and only if an offer is pending; a failure is recorded and cleans up |
| ConnManager.Manager.HandleSignalingError | conn/manager.go:467-479 | fails exactly the pending offers, and keeps the other connections |
| ConnManager.RejectOffers | conn/manager.go:470-478 | the loop does so in any order |
| ConnManager.Manager.OnIceState | conn/manager.go:523-591 | registers, fails or removes the peer, and settles the handler's own connection, which need not be the pending one |
| ConnManager.Manager.CleanupPending | conn/manager.go:625-636 | removes and closes the pending connection |
| ConnManager.RegisteredWasAdmitted | conn/manager.go:529-547 | **Main result.** in every run, with any failures, a registered peer was admitted by the gate before, and registered no more often than admitted |
| ConnManager.RegistrationsAreAdmitted | conn/manager.go:262-266 | registrations plus the pending connection never exceed the admissions of a peer |
| ConnHistory.RegisteredExactly | conn/manager.go:529-612 | **Main result.** in every run a peer is registered if and only if some event reported its connection while it was pending, and since then neither its receive loop ended nor a connection to it was lost while none was pending |
| ConnHistory.PendingExactly | conn/manager.go:126-591 | **Main result.** in every run a connection is pending in a role if and only if some event started it in that role and none of the listed events has ended it since |
| Glare.RolesAreComplementary | conn/manager.go:294-310 | **Main result.** any number of agents, no timeouts: two are never both answerers; and once the offers between them are delivered one offers and one answers, unless neither has offered |
| Glare.SmallerOffers | conn/manager.go:295-308 | **Main result.** without timeouts: if both offered, the smaller ID is the offerer, and the other answers exactly from when the smaller one's offer has arrived |
| Glare.AnswersFindOfferers | conn/manager.go:384-394 | **Main result.** an agent offers to another at most once, and every answer under way finds its receiver offering |
| Glare.HandshakeCompletes | conn/manager.go:259-427 | **Main result.** when all is delivered and one has offered, exactly one answer has passed, from answerer to offerer |
| Glare.PairStep | conn/manager.go:126-427 | every step of any agent keeps the invariant of every pair |
| Glare.BothAnswerExactly | conn/manager.go:220-226 | **Main result.** with any timeouts and repeated attempts, both can end as answerers in some run of the network if and only if the smaller ID may give up on the other |
| IceSort.SortICECandidates | transport/webrtc.go:324-337 | **Main result.** returns a fresh permutation and leaves the input: no candidate follows one of a lesser kind, host before server-reflexive before relay before all others, for every length |
| IceSort.SweepFrom | transport/webrtc.go:330-334 | the inner loop does what its specification on lists does |
| IceSort.SortedFacts | transport/webrtc.go:329-335 | the nested exchanges rearrange any list into nonincreasing priority |
| IceSort.SweptFacts | transport/webrtc.go:330-334 | one inner loop settles one more place |

## Left out

- Real cryptography (Ed25519, X25519, HKDF, XChaCha20-Poly1305, SHA-256, NIP-44, secp256k1): idealised as above.
- JSON, files, sockets, WebSocket, HTTP and Nostr traffic, and the internals of WebRTC: inputs and steps only.
- Loading and saving of the trust store, reputation store and message cache.
- The completion callback of transfers, `Progress`, `Info` and the listings: read-only members.
- Resume end to end: the receiver truncates its file on a new channel, so resuming is claimed for the sender's stream only, and ResumeRequest is not an action of the two-party protocol.
- The sender's file stays as it was when its digest was taken.
- Data channels opened to the sender's side, which an outgoing record refuses, and the byte counts of third parties' channels.
- DeliveryPossible.PossibleExactly: is about the two parties by themselves; among other agents only the existence of a complete run is claimed (EveryFileCanBeDelivered).
- ThirdPartyChannels.Agreement: besides proper sources it assumes that messages forged in the name of the two parties, which envelope signatures exclude, reuse no signature made for a third party's own offer; BorrowedSignatureEnters shows why.
- The 64-bit width of byte counters and file sizes.
- Backpressure of `WebRTCTransport.Send`, where several senders share one token.
- RelayPool.LivePool.GetRelay: does not model the slice aliasing of the in-place removal; the order is a value.
- MessageCache.Cache.Flush: returns envelopes as values, so sharing with the caller is not captured.
- Outbox.Box.BeginSweep: lists the IDs of the entries to retry rather than copies, as the retry reads nothing else that can change.
- ReputationGossip.ReputationGossip.ProcessClaim: reads the clock once, where the source reads it at each check, and is one step, where the source locks each table by itself.
- Reputation.ClosedForm: does not model floating-point rounding; neither do the other score theorems, nor NaN as a reported score.
- TrustStore.TrustStore.SetLevel: the reputation store, encryption key and callback are fixed at the start; the callback is registered throughout.
- ConnManager.Manager.StartConnect: stops where the source begins to wait; the end of the wait is the GiveUp event or the connection's ready flag.
- ConnManager.Manager.OnIceState: does not model the bounded channel that may drop intermediate states, since any sequence of states is allowed.
- Glare.RolesAreComplementary: for runs without timeouts and connection-state callbacks, as the pending map is keyed by peer only; BothAnswerExactly says what timeouts can break.
- IceSort.SortICECandidates: does not say in which order candidates of equal priority come out, as the source's exchanges do not keep it.
- The rekey handshake, connection monitor, task tracker, router, tools, platform adapters, examples and the command line.
