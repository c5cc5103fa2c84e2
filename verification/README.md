# Verification of tcp-multi-transfer

This project models three parts of the system and proves what they promise.

**The chunk transfer.** A sender cuts a file into chunks, workers take chunk
numbers from one shared queue and send each over their own stream, and receiver
workers write the chunks into one file, flag them and answer. `TransferSystem`
is the step relation of all workers, streams and both callers; a step is one
piece of code between two points where another task can run, and a stream can
fail at any of them. `TransferProofs` has the inductive invariant and the end to
end results, `TransferSuccess` shows that the runs they speak of exist, and
`TransferOutlook` says exactly from which states success can still be reached,
with the runs that reach it in `TransferRecovery`; `TransferFinal` is about the
stream the last answer takes. `Sender` and `Receiver` are the same workers as
classes over their shared fields and arrays, and `TransferRefinement` shows that
a turn of theirs is what the steps of the relation do when nothing comes
between. `TransferProtocol` has the bytes on the stream, `ChunkPlan` the
arithmetic of chunk numbers and ranges.

**Coordination.** `RelaySession` is one session of the relay as atomic sections
between `await`s, with the waiting for the session lock explicit; `RelayRetry`
and `RelayCoordination` prove what the two peers are promised in every run, each
against an automaton over histories that knows nothing of flags, dictionaries or
tasks. `RelayWaiting` is about requests that are not granted at once,
`RelayCompletion` about what a task that has come to its end has seen through,
`RelayPorts` about one `add_ports` from its arrival to its end, `RelayReady`
about what one READY is good for, and `RelayLists` about the ports a connection
needs. `RelayHandlers` has the sections as methods that assign the session's
fields one by one. `ConnectionLoop` and `ConnectionStates` are the client's loop
and its state machine, the loop with a log of what it sends and waits for;
`MessageQueue` has the queues between the reader and the loop.

**Port selection.** `NatEstimate` and `NatAnalyzer` estimate a peer's port range
from probes (the one on values, the other field by field), `NatTrend` is the
sign test and the least-squares fit, `NatCoverage` the number of ports to open,
`NatCandidates` the ports to try. What the analysis means for a peer is in
`NatPrediction` (where the predicted port lies among the observations),
`NatClass` (what the peer is called), `NatFit` (the fit is the best line) and
`NatLine` (a rising line is found). `PunchSpread` is about what `PunchTargets`
collects and how its thinning spreads. `PunchTargets`, `PunchBudget` and
`PunchWinner` are the client's list of targets, the sharing out of sockets, and
the choice among several connections. `Rounding` holds the two rounding rules:
Python's half-to-even and Rust's half-away-from-zero.

## Conventions

A loop that works on mutable state is a method of a class or a method with
invariants, proved equal to a function of the old state; what the source promises
is proved about that function. Sockets, clocks and the scheduler are oracles or
nondeterministic steps. CRC32 and SHA256 are uninterpreted functions; a payload
whose CRC matches its header is taken to be the one sent (`Genuine`). Floating
point numbers are exact: ratios of integers where they are rounded, reals
elsewhere; an m-th root is any real in [0, 1] that satisfies its equation, and a
standard deviation any non-negative real whose square is the variance.

## Where the code does not keep what one might expect

Each of these is stated as an exact condition or has a concrete counterexample.

- The chunk count is cast to 32 bits (src/transfer/sender.rs:172). Chunks cover
  the file, and `completed_bytes` ends at the file length, exactly when the count
  before the cast is below 2^32 (`ChunkPlan.IdsCoverFile`, `ChunkPlan.SumOfAllLengths`);
  the command line admits inputs on the other side (`ChunkPlan.CountCanVanish`).
- Two chunks per stream are reached exactly above 2n - 1 chunks of the smallest
  admissible size (`ChunkPlan.TwoChunksPerStream`).
- A worker that fails while reading the file or writing its stream takes its chunk
  number with it; no continuation of that run can succeed (`TransferProofs.LostChunkBlocksSuccess`,
  `TransferOutlook.ChunksCanBeLost`).
- DONE goes out on the first stream handed back (src/transfer/sender.rs:200-213). A sender
  with nothing to write does not notice that its receiver is gone, so a transfer can count
  everything over sound streams and still be unable to succeed
  (`TransferOutlook.UsableStreamIsNotEnough`). Success stays possible exactly if no number
  is lost and some usable stream has no live sender before it, or a number is at hand to
  send those away with (`TransferOutlook.SuccessStaysPossible`, case by case in
  `TransferOutlook.PromiseByStage` and `TransferOutlook.PromiseInBetween`). The last answer
  comes on the first stream the receiver got back, and is heard only if that is the same
  one (`TransferFinal.SuccessOnOneStream`).
- A retry request is answered or timed once its handler is done exactly if both peers
  were in the session (`RelayWaiting.DecidedRequestIsFollowed`); one that came before stays
  open until somebody asks again (`RelayWaiting.EarlyRequestStaysOpen`).
- With a budget below one port, a random-like peer still gets one candidate
  (`NatCandidates.BudgetKept`).
- One end keeps the same connection in every order of arrival exactly if LAN is not
  preferred or at most one candidate is LAN (`PunchWinner.AgreementNeedsOneLan`). The
  comment at src/punch/strategy.rs:169-173 says both ends give a connection the same LAN
  mark and so choose alike; the marks agree only under a condition (`PunchWinner.MarksAgree`),
  and the ends choose alike exactly as far as their marks allow it (`PunchWinner.EndsAgree`,
  with an attempt that breaks it in `PunchWinner.MarksCanDiffer`).
- docs/nat-und-punching.md:88-91 still describes a heuristic on port parity that
  the code no longer has; the model follows the code.

## Model

| member | source | states |
|---|---|---|
| ChunkPlan.ChunkSizeFor | src/transfer/mod.rs:114-119 | clamping never has its lower bound above its upper one, and a positive configured size gives a positive chunk size no larger than it |
| ChunkPlan.LargestFittingSize | src/transfer/mod.rs:114-119 | of the admissible sizes it is the largest that fits two times per stream into the file, or the smallest one where none does |
| ChunkPlan.TwoChunksPerStream | src/transfer/mod.rs:114-119 | at least two chunks per stream exactly when the file is longer than 2n - 1 smallest chunks |
| ChunkPlan.RangeOfId | src/transfer/sender.rs:271-273 | every announced chunk is non-empty, ends inside the file, and ends where the next one starts or at the end of the file |
| ChunkPlan.HeadersPassBounds | src/transfer/receiver.rs:293-304 | every header built for an announced chunk passes the receiver's checks |
| ChunkPlan.OneChunkPerByte | src/transfer/sender.rs:271-273 | a byte of the file lies in chunk pos / size and in no other: no gap, no overlap |
| ChunkPlan.IdsCoverFile | src/transfer/sender.rs:172-173 | the announced numbers cover the file if and only if the count fits 32 bits |
| ChunkPlan.SumOfAllLengths | src/transfer/sender.rs:271-297 | all chunk lengths sum to the file length if and only if the count fits 32 bits |
| ChunkPlan.CountCanVanish | src/cli.rs:219-245 | with the smallest block size the command line takes, a file of 2^32 such blocks announces no chunk, for any number of streams |
| TransferProtocol.FromCode | src/protocol/transfer.rs:22-38 | decoding a message type is the exact inverse of encoding: a hit is the encoded type, a miss is no type's code |
| TransferProtocol.AckRoundTrip | src/protocol/transfer.rs:129-148 | an encoded ACK or NACK decodes to itself, and whatever decodes was encoded that way |
| TransferProtocol.HeaderRoundTrip | src/protocol/transfer.rs:97-120 | an encoded chunk header decodes to itself |
| TransferProtocol.ByteAt | src/protocol/transfer.rs:130-138 | numbers are on the wire in network order: each byte counts in units of 256 to the number of bytes behind it |
| TransferProtocol.FramingRoundTrip | src/transfer/receiver.rs:267-345 | headers and payloads of any list of chunks followed by DONE are parsed back to exactly that list, whatever follows |
| TransferProtocol.ParsedIsPrefix | src/transfer/receiver.rs:267-345 | of any bytes at all, what the loop accepts is a prefix of the input, re-encoded, and every chunk in it passed the bounds |
| Receiver.WritingIsHarmless | src/transfer/receiver.rs:325-326 | writing any prefix of a genuine chunk, even again, makes no correct chunk incorrect |
| Receiver.AllCorrectIsSource | src/transfer/receiver.rs:221-229 | a file in which every announced chunk is correct is the source |
| Receiver.ReceiveGenuine | src/transfer/receiver.rs:317-333 | genuine chunks in any order, with repeats, flag exactly their numbers, keep the counter equal to the flags and are all acknowledged |
| Receiver.StreamReproducesFile | src/transfer/receiver.rs:253-348 | a stream that carries every chunk at least once and DONE leaves the source in the file, a full counter and the matching answers |
| Receiver.FreshFileBecomesSource | src/transfer/receiver.rs:253-348 | the same from the temporary file as created, whatever bytes it holds |
| Receiver.ReceiverWorkers.WriteAll | src/transfer/receiver.rs:325-326 | the payload lands at its offset in the shared file, nothing else changes |
| Receiver.ReceiverWorkers.Process | src/transfer/receiver.rs:317-333 | check, write, flag once, count once, answer: the state and answer of ReceiveChunk |
| Receiver.ReceiverWorkers.Read | src/transfer/receiver.rs:270-315 | reading through the reused payload buffer yields the next message of the input, with the right error in every malformed case |
| Receiver.ReceiverWorkers.Worker | src/transfer/receiver.rs:253-348 | the read loop leaves the file, flags, counter and answers that serving the whole input prescribes, and the DONE flag set exactly when it saw DONE |
| Sender.RunConserves | src/transfer/sender.rs:249-308 | over any run of answers and failures every number queued at the start is queued, acknowledged or lost, as often as before |
| Sender.RunEnding | src/transfer/sender.rs:249-309 | at most one number is lost, and only with an I/O error; the loop ends in order only with nothing queued and everything counted |
| Sender.RunCounts | src/transfer/sender.rs:287-301 | the counters count exactly the acknowledged chunks and their bytes, and bytes counted as sent for a refused chunk are taken back |
| Sender.SenderWorkers.WritePayload | src/transfer/sender.rs:112-126 | the piecewise write counts the whole payload, or exactly the pieces before the failing one |
| Sender.SenderWorkers.Attempt | src/transfer/sender.rs:249-307 | one turn: the shared queue and counters become those of Turn, the stream carries exactly the chunk's frame |
| Sender.SenderWorkers.Worker | src/transfer/sender.rs:234-310 | the whole loop ends with the queue, counters and ending of Run, and its stream carries the frames of the chunks tried |
| TransferProofs.StepKeeps | src/transfer/sender.rs:249-308 | every step of every worker, stream failure and caller keeps the invariant |
| TransferProofs.OnePlacePerChunk | src/transfer/sender.rs:249-308 | in every reachable state a number is queued once, held by one live worker, counted once or lost once; the counter counts distinct numbers |
| TransferProofs.AnswerNamesHeldChunk | src/transfer/sender.rs:287-306 | in every reachable state the answer a worker is about to read names the chunk it holds, though the numbers are never compared, and an acknowledged chunk has its flag |
| TransferProofs.HandsAreInBounds | src/transfer/receiver.rs:293-333 | in every reachable state numbers are announced, headers in transit are accepted, writes end inside the file and flags exist |
| TransferProofs.SenderCompleteMeansDelivered | src/transfer/sender.rs:195-210 | whenever the counter equals the total, every flag is set, nothing is queued or lost, and the receiver's file is the source (chunk count fitting 32 bits) |
| TransferProofs.CompleteTransferPassesChecks | src/transfer/receiver.rs:211-229 | a transfer the sender saw complete fails neither the receiver's count check nor its digest check |
| TransferProofs.KeptFileIsSource | src/transfer/receiver.rs:221-237 | a file the receiver keeps is the source, whether or not the sender learns of it |
| TransferProofs.SenderOkMeansFileArrived | src/transfer/sender.rs:208-231 | the sender reports success only after the receiver counted every chunk, compared the digest and kept the source |
| TransferProofs.LostChunkBlocksSuccess | src/transfer/sender.rs:275-285 | once a number is lost with a dead worker, no continuation completes, sends DONE or reports success |
| TransferSuccess.TransferCanSucceed | src/transfer/sender.rs:128-232 | for every source whose chunk count fits 32 bits there is a run in which the sender reports success and the file is the source |
| TransferOutlook.SuccessStaysPossible | src/transfer/sender.rs:195-231 | from any reachable state before DONE a continuation that reports success exists if and only if no number is lost and some usable stream has every sender before it gone, or a number is queued, in another stream's hand, or still to be put back by that stream |
| TransferOutlook.PromiseByStage | src/transfer/sender.rs:200-213 | with everything counted that means: the first sender that has not left with an error has a live receiver; with a number queued: some stream is usable |
| TransferOutlook.PromiseInBetween | src/transfer/sender.rs:287-306 | with nothing queued and numbers in hand: two holders need only a usable stream; a single holder needs another usable stream, or to be usable and the first one there, or usable with a number that can still be refused |
| TransferOutlook.UsableStreamIsNotEnough | src/transfer/sender.rs:200-219 | for every source a run after which everything is counted, nothing lost, the second stream sound at both ends, and no continuation succeeds: DONE goes to the first stream, whose receiver is gone |
| TransferFinal.SuccessOnOneStream | src/transfer/sender.rs:200-219 | in every run the sender reports success only if the stream it said DONE on, the first handed back to it, is also the first handed back to the receiver |
| TransferRecovery.CanMove | src/transfer/sender.rs:249-308 | a number in hand on a usable stream is never stuck: the next step is possible and brings its answer nearer, and undamaged work ends in an acknowledgement |
| TransferOutlook.ChunksCanBeLost | src/transfer/sender.rs:275-285 | losses occur: after pop and a failed write chunk 0 is lost and success out of reach |
| TransferRefinement.ReceiverTurn | src/transfer/receiver.rs:317-333 | take, write, swap, count and reply in a row do to stream, file, flags and counter what ReceiveChunk does, for refused, new and repeated chunks |
| TransferRefinement.AckedTurn | src/transfer/sender.rs:249-301 | pop, send and read the answer (and put back after a NACK) change queue and counters as the worker's turn does |
| TransferRefinement.UnansweredTurn | src/transfer/sender.rs:302-306 | without a readable answer the number is put back and the worker is gone, as in the worker's turn |
| TransferRefinement.FailedTurn | src/transfer/sender.rs:275-285 | a failed read or write takes the worker and exactly the number it held, as in the worker's turn |
| TransferRefinement.FailedWrite | src/transfer/receiver.rs:325-326 | a write that fails half way leaves the first part of the chunk in the file and the rest as it was, neither flagged nor counted |
| TransferRefinement.ReadFailure | src/transfer/receiver.rs:270-278 | a failed read hands the stream back, like an end, exactly once DONE was seen on any stream; before, it is an error |
| MessageQueue.PushRefines | src/connection/message_queue.rs:40-43 | a push appends to its own connection's messages and leaves every other connection's as they were |
| MessageQueue.TakeRefines | src/connection/message_queue.rs:46-55 | a pop takes the oldest message of its connection, or nothing exactly if there is none, and leaves all others as they were |
| MessageQueue.SharedRefinesSplit | src/connection/message_queue.rs:40-121 | over any run of pushes and pops the shared deque answers like independent queues, one per connection |
| MessageQueue.InPushOrder | src/connection/message_queue.rs:40-121 | per connection, what was popped followed by what is queued is what was pushed, in order |
| MessageQueue.MessageQueues.TakeFirst | src/connection/message_queue.rs:46-55 | the in-place search and removal is Take |
| MessageQueue.MessageQueues.PopGo | src/connection/message_queue.rs:63-72 | GO signals are taken by connection, the rest of the queue unchanged |
| MessageQueue.MessageQueues.PopPortsAck | src/connection/message_queue.rs:80-86 | port confirmations are plain first in, first out |
| MessageQueue.MessageQueues.PushError | src/connection/message_queue.rs:123-137 | an error is kept behind earlier ones; looking does not consume, so every reader sees the first |
| ConnectionStates.TransitionsDescend | src/connection/state_machine.rs:38-147 | every allowed transition keeps its connection and comes one step closer to a decision, except a failure; nothing leaves Established, only Punching enters it |
| ConnectionStates.FailuresBoundHistory | src/connection/state_machine.rs:38-147 | a history with f failures has at most 3 + 5f events |
| ConnectionLoop.Client.BindEphemeralUnique | src/connection/mod.rs:53-82 | the bound port is used by no other socket; giving up means ten useless draws in a row |
| ConnectionLoop.Client.SocketsUpTo | src/connection/mod.rs:141-158 | success means the list reaches beyond the index, and every port added was reported on its own; ports stay distinct, earlier sockets stay; it fails only for ten useless draws or a failed write |
| ConnectionLoop.Client.WaitFailed | src/connection/mod.rs:275-288 | a lost relay abandons at once, a server error returns early without counting, everything else counts and abandons exactly at the budget |
| ConnectionLoop.Client.Prepare | src/connection/mod.rs:199-233 | the receiver takes the number of connections from the first peer_info and keeps that; the sender ends with as many sockets as connections unless ten draws were useless, and reports the new ones at once |
| ConnectionLoop.Client.AwaitRetry | src/connection/mod.rs:409-460 | a granted retry puts the port just drawn, which no other socket has, in this connection's slot and reports that port to the relay; nothing else replaces a socket |
| ConnectionLoop.Client.Punch | src/connection/mod.rs:324-375 | a punch goes out from the port in the connection's own slot; it succeeds exactly if the outside says so, clears the failure count then and adds one otherwise |
| ConnectionLoop.Client.AwaitPeerInfo | src/connection/mod.rs:260-291 | kept information is used once, for connection 0; otherwise the next message decides, and a wait counts as good exactly if it was |
| ConnectionLoop.Client.AwaitGo | src/connection/mod.rs:293-322 | READY goes out before GO is waited for, and a punch follows only on a GO that came |
| ConnectionLoop.Client.RunConnection | src/connection/mod.rs:254-481 | the loop ends, never meets an invalid transition, punches at most max_failures times and finishes with one report: established right after a good punch, given up only if the relay was lost, that many interactions did go wrong, or no port could be drawn; where nothing goes wrong it is established |
| ConnectionLoop.Client.TreatConnection | src/connection/mod.rs:243-481 | a connection that finishes adds one report, established only after a punch and on a socket of its own, given up only for one of the reasons named, and leaves the failure count at 0; an early return passes on an error that came |
| ConnectionLoop.Client.Establish | src/connection/mod.rs:235-491 | messages and punches keep their order in every run: READY after peer_info and before the wait for GO, a punch only after it and from the port last reported for a retry, retry_request before its wait; reports come one per finished connection and in order; where every interaction is good and every draw a new port, every connection is established |
| RelayRetry.LegalAnswers | server/relay/handlers.py:295-342 | in a legal history answers plus an open request never exceed requests, so no request is answered twice, or both granted and rejected |
| RelayRetry.LegalGrants | server/relay/handlers.py:310-331 | in a legal history grants reach both roles in pairs, and each pair carries at most one retry |
| RelayRetry.StepKeeps | server/relay/handlers.py:281-386 | every step of handlers, timers, tasks and disconnects keeps the invariant |
| RelayRetry.HistoriesAreLegal | server/relay/handlers.py:281-386 | every run of a session tells a legal history, and the flags say exactly which requests are open in it |
| RelayRetry.AnswersBounded | server/relay/handlers.py:295-386 | per role and connection grants plus rejections plus the open request never exceed the requests; both roles have equally many grants |
| RelayRetry.BothFlagsMeanGrantComing | server/relay/handlers.py:295-331 | both flags are up only while a handler that set one of them waits for the lock, and its section grants: no grant is lost to the flag set before the lock or to a timer in between |
| RelayRetry.OpenRequestsAreFollowed | server/relay/handlers.py:334-386 | an open request has a handler about to decide it or a live registered timer, unless it came before the other peer |
| RelayRetry.EarlyRequestHasNoTimer | server/relay/handlers.py:304-308 | a witness for the two rows that follow: a run after which a request is open with neither handler nor timer |
| RelayWaiting.DecidedRequestIsFollowed | server/relay/handlers.py:298-342 | in every reachable live state, once its handler has decided, a request is answered or has a registered running timer if and only if both peers were in the session |
| RelayWaiting.EarlyRequestStaysOpen | server/relay/handlers.py:304-308 | a request decided before that stays open without a timer, and is neither granted nor rejected in any continuation without a further request for the connection |
| RelayWaiting.LogGrows | server/relay/handlers.py:281-386 | which grants, rejections, accepted ports and retry starts each step brings about |
| RelayWaiting.RetriesAreTasks | server/relay/handlers.py:149-168 | per connection the retries a run tells of are the retry tasks started, and with a waiting grant no more than the grants |
| RelayRetry.StartsBounded | server/relay/handlers.py:127-168 | retry tasks started for a connection, plus a grant still waiting for ports, never exceed its grants |
| RelayRetry.StartsFollowPorts | server/relay/handlers.py:127-168 | a retry task starts only after exactly one accepted add_ports of each role since the latest grant, and once for it |
| RelayRetry.NoRetryOverdue | server/relay/handlers.py:149-168 | while the session lives, a grant for which both have sent ports is already under way |
| RelayRetry.PortsTakeOneSlot | server/relay/handlers.py:127-146 | in the section under the lock accepted ports replace exactly the slot of the oldest grant still lacking this role, or go to the end if there is no such slot; the other peer's list is untouched |
| RelayPorts.AddPortsTakesEffect | server/relay/handlers.py:116-179 | over the whole handler, whatever others do between its sections, the peer's list changes by that one slot if there was such a grant at the decision, and otherwise becomes the old list and all the ports |
| RelayPorts.OthersLeaveList | server/relay/handlers.py:116-179 | while a peer's handler is at add_ports no other step touches that peer's list |
| RelayHandlers.SessionRecord.constructor | server/models.py:81-106 | a fresh session is an initial state of the relay |
| RelayHandlers.SessionRecord.GrantBoth | server/relay/handlers.py:310-331 | the assignments of the granting branch are the grant step, and both roles are told |
| RelayHandlers.SessionRecord.DecideRetryRequest | server/relay/handlers.py:298-342 | the section under the lock is the grant-or-wait step, and both roles are told exactly in case of a grant |
| RelayHandlers.SessionRecord.DecideRetryTimeout | server/relay/handlers.py:356-386 | the timeout's section is the reject step, and names whom it rejects |
| RelayHandlers.SessionRecord.TakePorts | server/relay/handlers.py:116-170 | the section of add_ports is the accept-and-maybe-start step |
| RelayHandlers.SessionRecord.FinishPorts | server/relay/handlers.py:178-179 | past the lock ports that replaced none are appended, as in the step |
| RelayHandlers.SessionRecord.TakeResult | server/relay/handlers.py:409-418 | a result is recorded with the peer and, while the session lives, with the session |
| RelayHandlers.SessionRecord.LookForResults | server/relay/coordinator.py:245-297 | one round of waiting copies peers' own records, fills in a missing peer, and returns both results exactly when both are known |
| RelayCoordination.GoIsPaired | server/relay/coordinator.py:104-128 | in a legal trace the receiver's GO directly follows the sender's with the same start time, and that the section that saw both ready |
| RelayCoordination.SentOnce | server/relay/coordinator.py:40-154 | no task sends one role GO, or peer information, twice for a connection |
| RelayCoordination.StepKeeps | server/relay/coordinator.py:40-154 | every step of tasks, handlers and disconnects keeps the invariant |
| RelayCoordination.TasksAreLegal | server/relay/coordinator.py:40-154 | every coordination and retry task of every run keeps to the promised order |
| RelayCompletion.EveryConnectionIsTreated | server/relay/coordinator.py:40-154 | in every run, while the session lives, a coordination task that ended without giving up or failing has resolved every one of its connections |
| RelayCompletion.RetrySendsGo | server/relay/coordinator.py:170-230 | and a retry task that ended so has sent GO to both peers |
| RelayCompletion.TaskMoves | server/relay/coordinator.py:40-154 | with the lock free and what it waits for at hand, a task goes on, to a later place or to the next connection |
| RelayLists.InfoNeedsPorts | server/relay/coordinator.py:61-66 | in every run a coordination task past its look at the lists has a port of both peers for its connection, for all it sends about it |
| RelayCoordination.OneStartTime | server/relay/coordinator.py:119-128 | in every run GO for a connection carries one start time to both peers |
| RelayCoordination.BothWereReady | server/relay/coordinator.py:104-111 | both ready flags were up in one section under the lock, and both peers had said so anew since the latest grant for the connection |
| RelayReady.NextGoNeedsReady | server/relay/coordinator.py:132-134 | in every run both peers send READY for a connection between one GO for it and the next, of whatever task |
| RelayReady.OnlyReadyRaises | server/relay/handlers.py:25-40 | no step but a peer's own READY raises its flag for a connection |
| RelayCoordination.InfoAfterReports | server/relay/coordinator.py:136-154 | peer information for the next connection is sent only after both roles' results for this one, and each is a result that peer reported |
| RelayCoordination.ResultsAreFresh | server/relay/coordinator.py:79-90 | the results a task goes by after its GO were recorded, for both roles, after that task had cleared the older ones for the connection |
| RelayCoordination.NoPeerMissing | server/relay/coordinator.py:279-297 | within a session's lifetime the branch that abandons a connection for a missing peer is never taken |
| Rounding.HalfEven | server/nat_analyzer.py:621 | the result is nearest to the ratio, and exact for whole ratios |
| Rounding.RatioIsReal | server/nat_analyzer.py:621 | rounding the ratio of two integers is rounding their real quotient, ties included |
| Rounding.HalfAway | src/punch/strategy.rs:250 | the result is nearest to the ratio, ties upwards, and exact for whole ratios |
| NatCandidates.BuildCandidatePorts | server/nat_analyzer.py:563-636 | the list built port by port is Candidates |
| NatCandidates.CandidatesAreDistinct | server/nat_analyzer.py:579-585 | every candidate is in the scan range, none is named twice |
| NatCandidates.BudgetKept | server/nat_analyzer.py:563-636 | the budget is kept if and only if the peer is not random-like or the budget is at least one |
| NatCandidates.WindowHoldsPrediction | server/nat_analyzer.py:625-636 | the window is exactly the budget of consecutive ports, or the whole range, and holds the prediction |
| NatCandidates.WindowIsCentred | server/nat_analyzer.py:625-636 | the prediction is in the middle of its window, to half a port, unless an end of the range cuts the window off |
| NatCandidates.ShortList | server/nat_analyzer.py:608-623 | with a short budget the prediction comes first, all others lie in the narrowed band, and the budget is kept |
| NatCandidates.NoCollision | server/nat_analyzer.py:616-622 | with a span of at least rest - 1 no two points round to the same port, half to even included |
| NatCandidates.ShortListIsFull | server/nat_analyzer.py:616-622 | then at least budget - 1 ports result, one less exactly if the prediction is itself a point of the spread |
| NatCandidates.GapBounded | server/nat_analyzer.py:616-622 | neighbouring points are at most the step, rounded up, apart |
| NatCandidates.BandIsCovered | server/nat_analyzer.py:616-622 | both band ends are tried, and one of any ceil(step) neighbouring ports of the band is |
| NatCandidates.OnlyObservedTried | server/nat_analyzer.py:598-623 | where the range reaches over the observations, a short list is the prediction and ports between the observed extremes, both of which are tried when there is room for three |
| NatCandidates.WholeBandWhenItFits | server/nat_analyzer.py:616-622 | a band no wider than the budget allows is tried completely |
| NatTrend.TailCountsOutcomes | server/nat_analyzer.py:86-90 | the sum of binomial coefficients counts the outcomes of n tosses with at least k heads |
| NatTrend.TailProbability | server/nat_analyzer.py:86-90 | the tail is 1 at k = 0, lies in [0, 1] and never grows with k |
| NatTrend.CauchySchwarz | server/nat_analyzer.py:125-130 | the squared mixed sum never exceeds the product of the two sums of squares |
| NatTrend.R2IsShare | server/nat_analyzer.py:93-133 | for all inputs r2 is in [0, 1]; a significant trend has r2 of at least 0.5 and a positive rate, any other rate 0 |
| NatTrend.TrendNeedsEvidence | server/nat_analyzer.py:113-116 | a significant trend takes at least six probes and more rises than chance explains |
| NatTrend.TrendIgnoresOrigin | server/nat_analyzer.py:93-133 | verdict, rate and r2 stay the same when a constant is added to all times or all ports |
| NatTrend.ShiftBounded | server/nat_analyzer.py:455-465 | the applied shift is in [0, 32], and 0 without a trend |
| NatFit.NoLineFitsBetter | server/nat_analyzer.py:121-130 | of all straight lines none has smaller squared distances to the ports than the one with the fitted rate through the means, and what it leaves is the variation less the part it explains |
| NatFit.TrendMeans | server/nat_analyzer.py:109-133 | for four probes or more over some time: a trend is found if and only if chance explains so many rises with at most five in a hundred, the fitted line rises, and it leaves at most half of the ports' variation; then its rate is the one noted |
| NatLine.RisingLineIsFound | server/nat_analyzer.py:93-133 | six probes or more whose ports lie on a rising line: the trend is found, with exactly that rate and r2 = 1 |
| NatLine.FallingLineIsNone | server/nat_analyzer.py:116-119 | ports on a level or falling line show none |
| NatLine.ShiftIsOneSecond | server/nat_analyzer.py:459-460 | the applied shift is the rise within one second, rounded, or the largest shift for a rate of 32.5 and more |
| NatClass.TrendIgnoresOrder | server/nat_analyzer.py:447-455 | where no two probes share a time, the trend does not depend on the order in which they are listed |
| NatEstimate.SortedSorts | server/nat_analyzer.py:437 | the median is taken from the middle of the same values in ascending order |
| NatEstimate.MedianBetween | server/nat_analyzer.py:321 | the median lies between the smallest and the largest observation |
| NatEstimate.MeanBetween | server/nat_analyzer.py:416-418 | so does the mean |
| NatEstimate.DeviationIsMax | server/nat_analyzer.py:420 | the deviation is the largest distance of a value from the centre, and attained |
| NatEstimate.ErrorRangeReaches | server/nat_analyzer.py:443-445 | whatever the standard deviation, the rounded error range around the rounded centre reaches every value it was computed from |
| NatClass.ErrorRangeIs | server/nat_analyzer.py:443-445 | it is the largest deviation and twice the standard deviation, at least two, up to one port of rounding |
| NatClass.DeltasAreOffsets | server/nat_analyzer.py:425-430 | the offsets are those of the probes that name a local port, and no others |
| NatEstimate.ByTimeSorts | server/nat_analyzer.py:448-450 | the trend test sees the same probes in order of time |
| NatEstimate.BlockIsSmallestFit | server/nat_analyzer.py:158-189 | a block is the smallest of the five sizes that fits, and is named exactly for eight observations and a fit |
| NatEstimate.FitIsNoChance | server/nat_analyzer.py:176-186 | a block fits exactly if it is aligned around the observations and a band as wide as theirs would lie in one block by chance in at most one of twenty places |
| NatEstimate.ClipKeepsObservations | server/nat_analyzer.py:303-311 | clipping to a detected block only narrows the band and removes no observation |
| NatEstimate.BandHoldsObservations | server/nat_analyzer.py:192-204 | the estimated band holds every observed valid port |
| NatPrediction.MarginIsQuarter | server/nat_analyzer.py:191-202 | it reaches beyond the extremes by a quarter of their distance, to the nearest port, and not past the valid ports |
| NatClass.BandStaysInBlock | server/nat_analyzer.py:302-316 | the final band of a random-like peer is the estimated one, or lies in the aligned block of the observations where one was detected |
| NatEstimate.RangeHoldsPrediction | server/nat_analyzer.py:363-505 | for all probes with positive ports, in both modes: 1024 <= scan_start <= predicted <= scan_end <= 65535, unless there was too little data, and then no scan |
| NatEstimate.ScanNeeded | server/nat_analyzer.py:397-490 | a scan is called for if and only if there is enough data, the ports are not kept, and the ports (or their offsets) are not all alike |
| NatEstimate.RangeHoldsObservations | server/nat_analyzer.py:293-331 | for random allocation with valid ports the final range holds every observed port, and is a single port where all are alike |
| NatEstimate.ExternalRangeHoldsObservations | server/nat_analyzer.py:415-485 | in external mode without a trend the final range holds every observed valid port, whatever the classification, margin or block |
| NatPrediction.MedianHalves | server/nat_analyzer.py:437 | at least half of the values are no larger than the median, and at least half no smaller |
| NatPrediction.PredictionFollowsObservations | server/nat_analyzer.py:415-465 | in both modes, for a peer that is not random-like, the predicted port lies between the ports that the least and the greatest observation point to from the target's port, moved along with the trend |
| NatPrediction.PredictionIsMedian | server/nat_analyzer.py:440 | by offsets, at least half of the ports the observations point to are no higher than the predicted one, and at least half no lower |
| NatPrediction.AlikeIsExact | server/nat_analyzer.py:341-348 | observations that are all alike pin the prediction to the one port they point to, moved with the trend, with nothing to scan whatever the manual margin |
| NatPrediction.RangeHoldsPointedTo | server/nat_analyzer.py:415-485 | in both modes without a trend the range of a peer that is not random-like holds every valid port an observation points to |
| NatPrediction.WideningIsShare | server/nat_analyzer.py:272-290 | a manual margin adds its share of the range to the nearest port, half on either side with an odd port above, and not past the valid ports |
| NatClass.ClassIsByErrorRange | server/nat_analyzer.py:334-360 | the class names the interval the error range lies in: random-like exactly for unlike observations and more than a hundred ports; the hit rate noted is 1, the spanned share of a band, or none; a peer by offsets moves on exactly if it is not random-like and a trend was found |
| NatClass.TrendIsNoted | server/nat_analyzer.py:455-460 | the trend's rate, r2 and shift stand in the analysis as they were found |
| NatClass.KeptPortIsPredicted | server/nat_analyzer.py:397-411 | a peer is called port-preserving if and only if two probes or more all kept their port and there is a local port to go by; that port is then predicted, alone and without candidates |
| NatEstimate.PredictionIsTried | server/nat_analyzer.py:207-219 | for all probes and any budget of at least one, the predicted port is among the candidates |
| NatEstimate.RandomCandidatesAreObserved | server/nat_analyzer.py:563-623 | for all probes of a random-like peer and every short budget: the observed ports are not all alike, besides the prediction only ports between the lowest and the highest one are tried, and with a budget of three or more those two are |
| NatAnalyzer.NatAnalysis.TakeBand | server/nat_analyzer.py:293-331 | the assignments amount to AsBand |
| NatAnalyzer.NatAnalysis.Rank | server/nat_analyzer.py:334-360 | the ladder's assignments amount to Classify |
| NatAnalyzer.NatAnalysis.Widen | server/nat_analyzer.py:272-290 | the manual margin's assignments amount to Widened |
| NatAnalyzer.NatAnalysis.IncludePrediction | server/nat_analyzer.py:207-219 | the range is stretched to the prediction as WithPrediction says |
| NatAnalyzer.AnalyzeNat | server/nat_analyzer.py:363-505 | the analysis filled in field by field is Analyse, for every input |
| NatCoverage.NeededCoverage | server/nat_analyzer.py:508-560 | the number of ports is Coverage, the noted hit rate is the model's value for it, no other field changes |
| NatCoverage.WantedIsLeast | server/nat_analyzer.py:546-550 | without the ceiling, j ports reach the aim if and only if j is at least the computed number |
| NatCoverage.CoverageReachesAim | server/nat_analyzer.py:546-554 | the result is the smaller of ceiling (at least one) and wanted number, and reaches the aim if and only if the ceiling allows the wanted number |
| NatCoverage.CandidatesKeepCoverage | server/relay/utils.py:77-81 | for all probes, ceilings and shares the candidates are never more than the coverage asked for, which is at least one, and hold the prediction |
| NatCoverage.ShareIsUnique | server/nat_analyzer.py:549 | there is one root, so the result does not depend on how it is found |
| NatCoverage.MorePortsNeedLess | server/nat_analyzer.py:547-550 | more ports held by the peer never call for more coverage, and always for a smaller share of the band |
| NatCoverage.BandOutgrowsSpan | server/nat_analyzer.py:540-545 | the band is wider than the span by the (n-1)-th part of it on either side, so it never falls below the span and shrinks towards it with more probes |
| NatCoverage.MoreProbesNeedLess | server/nat_analyzer.py:531-550 | the same span seen with more probes never calls for more, and too few probes call for all that is allowed |
| NatCoverage.RateIsSeenShare | server/nat_analyzer.py:191-202 | the rate an analysis gives a band is the share of the estimated band that was seen |
| NatCoverage.WiderNeedsMore | server/nat_analyzer.py:546-550 | a wider spread of as many probes never calls for less |
| PunchTargets.BuildTargets | src/punch/strategy.rs:186-267 | the list built in place is Targets |
| PunchTargets.TakeEvenly | src/punch/strategy.rs:244-256 | the picking loop is Take |
| PunchTargets.TakeIsExact | src/punch/strategy.rs:244-256 | picking evenly adds exactly the count, or all there are, none twice, and keeps what was there |
| PunchSpread.TakenEvenly | src/punch/strategy.rs:244-256 | not cut off but thinned out: of any ceil(step) neighbouring targets one is taken |
| PunchTargets.TargetsAreDistinct | src/punch/strategy.rs:187-203 | no target appears twice, and every one is an address the relay sent |
| PunchTargets.LanComesFirst | src/punch/strategy.rs:202-203 | no LAN target stands behind one that is not, before or after thinning |
| PunchTargets.ThinningIsExact | src/punch/strategy.rs:223-265 | exactly as many targets are kept as allowed, or all of them |
| PunchTargets.LanDroppedOnlyForLan | src/punch/strategy.rs:226-228 | every LAN target is kept if and only if LAN targets alone fit the limit |
| PunchTargets.BandComesFirst | src/punch/strategy.rs:240-263 | behind the fixed prefix a target outside the band is kept only if every one inside is |
| PunchTargets.FirstOtherIsKept | src/punch/strategy.rs:226-228 | the first target that is not LAN keeps its place behind the LAN targets where there is room for it |
| PunchSpread.ThinningIsEven | src/punch/strategy.rs:205-263 | behind the fixed prefix, of any stretch of the list with g targets inside the band, or outside of it, one of them is kept, where g is the number of such targets for each one there is room for, rounded up |
| PunchSpread.CollectedExactly | src/punch/strategy.rs:188-201 | exactly the addresses that parse are collected, each marked LAN as where it occurs first |
| PunchSpread.CollectedInOrder | src/punch/strategy.rs:188-201 | they stay in the order in which they first occur |
| PunchTargets.LansOf | src/punch/strategy.rs:202-203 | sorting LAN first keeps the order on either side |
| PunchSpread.BandedOf | src/punch/strategy.rs:240-241 | so does telling inside from outside the band |
| PunchSpread.ObservedIsInside | src/punch/strategy.rs:230-238 | with the observed extremes as its edges the band holds every port observed and none beyond them |
| PunchSpread.PrivateBlocks | src/punch/strategy.rs:269-274 | private addresses are those of the three blocks of section 3 of RFC 1918, as ranges of 32-bit numbers |
| PunchBudget.SocketsWithinBudget | src/punch/strategy.rs:331-414 | groups times ports per target never exceed max(1, budget) |
| PunchBudget.NoneToSpare | src/punch/strategy.rs:331-414 | the budget is used up: ports per target, and then groups, are the most that it allows |
| PunchBudget.TurnsOnlyWhenShort | src/punch/strategy.rs:413-422 | rotation is on if and only if targets exceed max(1, budget), then with one port per target; the empty branch never runs |
| PunchBudget.GroupsPartition | src/punch/strategy.rs:424-428 | every target is in exactly one group at one place, and no group is empty |
| PunchBudget.StartConnectors | src/punch/strategy.rs:424-441 | the connectors started are one per group and slot, each with its strided targets |
| PunchBudget.ChannelNeverFull | src/punch/strategy.rs:367-382 | the channel has room for every send, so no task blocks on it |
| PunchBudget.TurnsVisitAll | src/punch/strategy.rs:561-567 | turn by turn every target of a group comes up once in a round |
| PunchWinner.PreHandshake | src/punch/helpers.rs:67-88 | the bytes written are the greeting with the own number, the key returned is that of own number and bytes read, or none for a foreign greeting |
| PunchWinner.KeyIsSymmetric | src/punch/helpers.rs:66-88 | both ends of a connection compute the same key, the ordered pair |
| PunchWinner.KeyOnlyFromHello | src/punch/helpers.rs:79-88 | a key comes only of bytes that are a greeting, and is then the pair with the number in it |
| PunchWinner.KeyTellsPair | src/punch/helpers.rs:83-88 | keys are alike exactly for the same two numbers |
| PunchWinner.Choose | src/punch/strategy.rs:445-485 | the loop over arrivals keeps Chosen and looks at one candidate or all |
| PunchWinner.BestIsLeast | src/punch/strategy.rs:174-179 | the kept candidate beats every other one |
| PunchWinner.OrderDoesNotMatter | src/punch/strategy.rs:470-484 | without the early exit any order of arrival leads to the same connection |
| PunchWinner.AgreementNeedsOneLan | src/punch/strategy.rs:465-485 | with the early exit all orders agree if and only if LAN is not preferred or at most one candidate is LAN |
| PunchWinner.EndsAgree | src/punch/strategy.rs:169-179 | whatever each end connected to or accepted, both keep the same connection in all orders of arrival if and only if LAN is not preferred or each marks at most one, and that one is marked at the other end too or the other marks none and it has the least key |
| PunchWinner.MarksAgree | src/punch/strategy.rs:198-200 | both lists of candidates are the same exactly if, connection by connection, the relay's words about the target fit the address seen (the two marks written out); what that gives is the consequence of EndsAgree: then the ends choose alike exactly if LAN is not preferred or at most one is marked |
| PunchWinner.MarksCanDiffer | src/punch/strategy.rs:368-386 | two connections one attempt can bring about, with one accepted candidate at most per end and each peer under addresses of its own, of which the two ends keep different ones |

## Left out

- TransferProofs.SenderCompleteMeansDelivered: assumes that a matching CRC means the payload sent; CRC32 and SHA256 themselves are not modelled.
- TransferProofs.SenderOkMeansFileArrived: equality with the source is stated for chunk counts below 2^32; above, the digest comparison is all the code has.
- TransferOutlook.SuccessStaysPossible: says that a continuation exists, not that the scheduler and the network take it; chunk counts of 2^32 and more are left out, and both ends are taken to list their streams in the same order.
- TransferProofs.StepKeeps: damage to a header in transit is not a step; only payloads can be damaged, as the header has no checksum.
- ConnectionLoop.Client.Establish: how waits, writes and punches end is given by an oracle; the loop's log lines, metrics and message texts are left out.
- RelayHandlers.SessionRecord.TakePorts: the bookkeeping of pending probes before the lock and the text of the messages are left out.
- RelayHandlers.SessionRecord.LookForResults: the reasons stored beside results are left out.
- RelayCoordination.TasksAreLegal: is stated per task; how many coordination tasks a session starts is left open, as `probes_complete` may start two.
- RelayCoordination.InfoAfterReports: stays within one session lifetime; what old tasks do after a session id is used again is left out.
- RelayWaiting.DecidedRequestIsFollowed: says that a timer is running, not when it fires.
- RelayHandlers.PeerRecord.TakePort: connection numbers are natural numbers; the code takes any integer a message holds, and a negative one would index `bound_ports` from its end (server/relay/handlers.py:132-134).
- NatAnalyzer.AnalyzeNat: the mapping and filtering classes are left out; they do not enter the range or the prediction.
- NatCoverage.NeededCoverage: the algebra of the formula is proved, not that ports are drawn uniformly.
- NatCandidates.BuildCandidatePorts: rounds exact ratios; the error of a floating point quotient is not modelled.
- PunchTargets.BuildTargets: whether an address text parses is an input, and the step of even picking is an exact ratio.
- PunchWinner.Choose: the waiting window is not modelled; the candidates that arrive within it are the input.
- PunchWinner.EndsAgree: takes both ends to see every connection that came about; one that reaches only one end within its window is left out.
- Memory ordering of the atomic counters: every access is one step of an interleaving.
- Sockets, tokio and asyncio, file system buffering, timeouts as durations, JSON, logging, progress bars, metrics and benchmarks.
- Registration, probing and address lists in the relay: thin code around the modelled state.
