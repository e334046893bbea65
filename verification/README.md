# Protocol models for the NATS transport

This project models the concurrent and stateful core of the NATS transport (`tnats/`) in Dafny and proves
properties that hold over every interleaving, every sequence of replies and every input. Interleaved code is a
state machine whose steps are the atomic actions of the source (one call into the key-value bucket, one channel
operation, one critical section, one broker request); a run is any sequence of steps that are possible where they
happen. Loops and buffers are methods proved against functions, and the stream server is a class.

| file | what it models |
|---|---|
| `Expiry.dfy` | expiry arithmetic on signed 64-bit nanoseconds; encoding and decoding of ledger entries |
| `Ledger.dfy` | Claim, RenewClaim, Complete and Release on one idempotency key, any number at once, on a compare-and-set bucket |
| `LedgerInvariant.dfy` | what every step of that protocol keeps |
| `LedgerTheorems.dfy` | lease exclusion, fencing, single publication, replay integrity |
| `LedgerLease.dfy` | exactly which configured leases a worker may trust when replies are lost |
| `LedgerRuns.dfy` | undisturbed calls reach their goal; runs that show why the hypotheses above are needed |
| `LedgerAnswers.dfy` | what Claim, RenewClaim, Complete and Release answer; replay, renewal and release at work |
| `Supervisor.dfy` | the goroutine that executes an action and finalises its claim, with the goroutine that renews the lease |
| `WorkerProgram.dfy` | any number of workers, each with those two goroutines, on the ledger |
| `RequestHash.dfy` | the framed bytes behind the request hash, on both code paths |
| `Delivery.dfy` | handling of one delivery by the consumer and the durable worker; limits, delays, validation |
| `Broker.dfy` | source stream, in-order first delivery within MaxAckPending, redelivery, concurrent handlers, crashes, dead-letter stream with message-ID dedup |
| `BrokerTheorems.dfy` | execution bound, no message loss, dead-letter dedup, bounded settlement |
| `BrokerSuccess.dfy` | when a message whose action succeeded cannot be dead-lettered |
| `BrokerRuns.dfy` | the broker steps of one handler are the handler's trace; unbounded dead-letter retries; limits of the theorems |
| `Subjects.dfy` | the two wildcard scanners, the token-list matcher, and coverage as language inclusion |
| `Provisioning.dfy` | ensureStream against a server that can fail or lose replies |
| `ConnectionGate.dfy` | EnsureConn and Close racing for the connection |
| `ConnectionProgress.dfy` | Close comes back without help from outside; what EnsureConn returns |
| `WorkerDrain.dfy` | Do, its shutdown order, startWorker and the worker count |
| `Options.dfy`, `Identifiers.dfy` | shared helpers |

How failures are modelled. Every bucket write may be acknowledged, refused with any error, or take effect although
the caller is told that it failed; acks, terminations and dead-letter publishes likewise. A write that takes effect
does so no later than its reply. Clock readings are steps of their own, so time can pass between reading an entry or a
claim, deciding on it and writing. Calls can be cancelled and handlers can crash at any step.

Where a claim one would like to make is false of the code, there are runs or inputs that refute it, next to the
theorem with its condition:

- the lease as its owner believes it: `LedgerLease.BelievedLeaseExclusion` is an if-and-only-if on the configured
  lease, with `LostShortening` as the refuting half;
- coverage of subjects: `CoverageIsInclusion` is an if-and-only-if, with `StarCoversTail`;
- no message loss: `LossCondition` is an if-and-only-if on the binding (dead-letter subject, ack policy and
  MaxAckPending), with `AckAllLosesRetry` and `NoDeadLetterSubject`; `SharedMessageId` shows that one durable per stream is needed too;
- the worker count: `CountWhileClosing` is an if-and-only-if on the state, with `CloseDuringMount`;
- single publication: `SinglePublication` has two conditions. `StaleClaimOverwrites` and `LateWriteOverwrites` show
  from every reachable state that a claim write or an entry write that breaks its condition leads to an overwritten
  entry while the other condition is kept; `LookupGap` and `LateEntryWrite` show that such writes are reachable;
- a success that is not dead-lettered: `SuccessIsFinal` has two conditions, and `SucceededThenDeadLettered` and
  `OverlappingDeliveries` show for every binding that neither can be dropped; `SuccessAtRisk` says what a success
  without its ack leads to.

Where code and comments differ: the comment on `Do` says it is safe to call once per transport, the code allows a
later call after an earlier one has returned, and the model follows the code.

## Model

| member | source | states |
|---|---|---|
| `Expiry.ExpiryOf` | tnats/idempotency_kv.go:445-454 | for signed 64-bit times the TTL is rejected exactly when it is positive and now + TTL does not fit, although the source compares against a saturating difference; otherwise the expiry fits |
| `Expiry.EntryRoundTrip` | tnats/idempotency_kv.go:411-454 | an entry that was stored reads back unchanged exactly until its expiry, forever for a non-positive TTL, and is missing exactly from the expiry on |
| `Expiry.OtherFormats` | tnats/idempotency_kv.go:419-443 | entries of earlier versions never expire, and what is no entry is never found |
| `LedgerInvariant.RunInv` | tnats/idempotency_kv.go:173-409 | in every interleaving of calls, lost replies, cancellations and clock steps: every unexpired grant that was not given up is the claim in the bucket, stored claims are well formed and carry the hash their token was drawn with, revisions never recur, and every call's view of the bucket is consistent with it |
| `LedgerTheorems.LeaseExclusion` | tnats/idempotency_kv.go:173-295 | in every run at most one worker holds a lease that is unexpired and not given up |
| `LedgerTheorems.ToldLeaseExclusion` | tnats/idempotency_kv.go:335-374 | the same for the lease as its owner was last told of it, in every run where no extension that ends earlier loses its acknowledgement |
| `LedgerLease.BelievedLeaseExclusion` | tnats/idempotency_kv.go:335-374 | when all claims and renewals ask for one lease and replies may be lost, at most one worker trusts its lease in every run if and only if that lease is no longer than the default one, or so long that no second claim fits into the 64-bit clock |
| `LedgerLease.LostShortening` | tnats/idempotency_kv.go:357-371 | for every longer lease that fits, a run in which two workers trust a lease at once: the completion extension shortened the first one and its acknowledgement was lost |
| `LedgerTheorems.ClaimLaw` | tnats/idempotency_kv.go:245-409 | in every reachable state a stored claim is not judged corrupted, and whatever step comes next leaves it alone, extends it by a call of its own token with its hash kept, takes it over only when it has already expired and for a request with its hash, or deletes it by a call of its own token; so a Release never removes another token's claim |
| `LedgerTheorems.Fencing` | tnats/idempotency_kv.go:299-409 | once a handed-out token's claim is replaced or deleted it never reappears; its renewals can only fail, and a Complete that has not extended by then never reaches the entry write |
| `LedgerTheorems.SinglePublication` | tnats/idempotency_kv.go:190-218 | in every run where each claim is written while a second lookup would find no entry and each entry write lands under its writer's lease, an entry that can still be found is overwritten only by the token that published it |
| `LedgerTheorems.FreshRun` | tnats/idempotency_kv.go:190-218 | a run in which no completion lands between a lookup and its claim write meets the first of these conditions |
| `LedgerTheorems.DisciplinedSinglePublication` | tnats/idempotency_kv.go:297-333 | the same when each entry write lands before its extended lease ends and the calls of one token follow one another |
| `LedgerRuns.StaleClaimOverwrites` | tnats/idempotency_kv.go:190-218 | from every reachable state, an unexpired claim written over an entry that can be found continues, with every entry write under a lease, to a step that overwrites that entry, as long as the default lease fits the clock |
| `LedgerRuns.LookupGap` | tnats/idempotency_kv.go:190-218 | such a claim write is reachable: a completion lands between a Claim's lookup and its write |
| `LedgerRuns.LateWriteOverwrites` | tnats/idempotency_kv.go:316-323 | from every reachable state with an entry write under way in which a new claim can be made, a run with every claim written while no entry can be found ends in that write overwriting another worker's entry, as long as the default lease fits the clock |
| `LedgerRuns.LateEntryWrite` | tnats/idempotency_kv.go:316-323 | such a state is reachable: a run in which an entry write after the end of its extended lease overwrites the live entry of the worker that took over |
| `LedgerTheorems.ReplayIntegrity` | tnats/idempotency_kv.go:190-205 | in every run a replayed entry carries the hash of the request that receives it (or none), and it was handed to Complete by an execution that claimed with that hash, or was in the bucket from the start |
| `LedgerTheorems.OnlyLookupsReplay` | tnats/idempotency_kv.go:190-199 | a call ends as a replay only by deciding on the entry it has just looked up |
| `LedgerRuns.ClaimAlone` | tnats/idempotency_kv.go:173-243 | with no entry to find and no claim, an undisturbed Claim acquires, with expiry now + TTL |
| `LedgerRuns.TakeoverAlone` | tnats/idempotency_kv.go:221-295 | an undisturbed Claim takes over an expired claim with its hash |
| `LedgerRuns.CompleteAlone` | tnats/idempotency_kv.go:299-333 | an undisturbed Complete of the lease holder publishes its entry with the end of the life that was asked for, whatever TTL fits, and leaves no claim behind |
| `LedgerRuns.WorkerAlone` | tnats/idempotency_kv.go:173-333 | Claim followed by Complete succeeds for one undisturbed worker, from an empty or an expired claim |
| `LedgerAnswers.EntryDecides` | tnats/idempotency_kv.go:190-199 | in every state a Claim whose lookup found an entry is answered by it: with the entry if and only if the entry carries no hash or the request's, with a conflict if and only if another; a corrupted entry fails the call, an expired one or none sends it on to claim |
| `LedgerAnswers.ClaimDecides` | tnats/idempotency_kv.go:221-276 | in every reachable state a Claim that inspects the claim in its way answers conflict if and only if that claim is of another request, in progress if and only if it is of its own and unexpired, and else goes on to replace it; if it has gone, creation is tried again |
| `LedgerAnswers.CreateInspects` | tnats/idempotency_kv.go:221-243 | a create that is not acknowledged, for whatever reason, is followed by a look at the claim in the way |
| `LedgerAnswers.RaceAnswers` | tnats/idempotency_kv.go:245-295 | a write that lost a race answers in progress, a replacement whose claim has gone tries to create again, any other refusal fails the call |
| `LedgerAnswers.RetryAcquires` | tnats/idempotency_kv.go:245-257 | a Claim whose create found a claim that has gone by the time it looks acquires |
| `LedgerAnswers.LookupFinds` | tnats/idempotency_kv.go:190-199 | an undisturbed Claim is answered by the entry that can be found and writes nothing |
| `LedgerAnswers.CompletedIsReplayed` | tnats/idempotency_kv.go:173-333 | after one worker has claimed and published, a later Claim of the same request gets its entry and one of another request a conflict, for as long as the entry lives, for ever if its TTL is not positive |
| `LedgerAnswers.ExpiredIsReclaimed` | tnats/idempotency_kv.go:173-333 | and once the entry's life has ended a later Claim of any request acquires |
| `LedgerAnswers.BlockedByClaim` | tnats/idempotency_kv.go:221-276 | an undisturbed Claim that finds a claim in its way answers in progress while that one is unexpired and of the same request, conflict if of another, and leaves it alone |
| `LedgerAnswers.ExtensionDecides` | tnats/idempotency_kv.go:335-374 | in every reachable state RenewClaim and Complete go on to extend a claim if and only if it is their own, unexpired and the new expiry fits; it then keeps token and hash and ends a full lease from now; otherwise they fail |
| `LedgerAnswers.SuccessMeans` | tnats/idempotency_kv.go:299-409 | a call that reports success has achieved what it is for: a renewal's claim is in the bucket, a completed or released one is not |
| `LedgerAnswers.PublishedBeforeDelete` | tnats/idempotency_kv.go:316-333 | Complete deletes its claim only after an acknowledged write of its entry |
| `LedgerAnswers.RenewAlone` | tnats/idempotency_kv.go:479-529 | an undisturbed renewal by the lease holder succeeds, with the claim ending a full lease from now and its owner told |
| `LedgerAnswers.ReleaseFrees` | tnats/idempotency_kv.go:377-409 | in every state a Release that reports success on the bucket's own answer has left no claim of its token |
| `LedgerAnswers.NothingToRelease` | tnats/idempotency_kv.go:377-409 | a Release that finds nothing of its own reports success and changes nothing |
| `LedgerAnswers.ReleaseAlone` | tnats/idempotency_kv.go:377-409 | an undisturbed Release of the claim in the bucket deletes it |
| `LedgerAnswers.ReleasedIsFree` | tnats/idempotency_kv.go:377-409 | after it the next undisturbed Claim of any request acquires at once, without waiting for the lease to end |
| `Supervisor.Supervised` | tnats/idempotency.go:110-162 | in every interleaving the error send never blocks, Complete is called at most once and only without a recorded renewal failure, and a return means exactly one of a successful Complete and one Release attempt |
| `Supervisor.CompleteIffResult` | tnats/idempotency.go:128-162 | in every interleaving: when executeWithCoordinator has returned, Complete was called exactly once if the action returned without error or panic, its result could be marshalled and no renewal failure was recorded, and never otherwise, in which case the claim was released |
| `Supervisor.RenewsUntilStopped` | tnats/idempotency.go:182-207 | in every interleaving the renewal goroutine ends only after it was stopped or a renewal failed, and a failed renewal is recorded unless it was stopped first |
| `Supervisor.QuietAfterStop` | tnats/idempotency.go:209-218 | after stopRenewal has returned no renewal is running and none ever starts |
| `Supervisor.FailureAborts` | tnats/idempotency.go:194-204 | from a recorded renewal failure on, Complete is never called, the action's context is or is about to be cancelled, and the return follows a Release attempt |
| `Supervisor.NeverStuck` | tnats/idempotency.go:182-218 | no interleaving of the mutex, the two channels and the select deadlocks |
| `Supervisor.Terminates` | tnats/idempotency.go:128-219 | every run is at most sixteen steps long plus two per timer tick |
| `WorkerProgram.ProgramIsSerial` | tnats/idempotency.go:110-219 | any number of workers, each running both goroutines: in every run the calls made with one token follow one another, and none is renewed once its Complete has been called |
| `WorkerProgram.WorkersPublishOnce` | tnats/idempotency.go:78-162 | single publication for these workers, with no assumption left about the order of their calls |
| `WorkerProgram.WorkersTrustLease` | tnats/idempotency.go:87-124 | with one lease no longer than the default one, at most one of these workers trusts its lease at any time, whatever replies are lost |
| `RequestHash.BigEndianRoundTrip` | tnats/idempotency.go:24-25 | a length that fits its bytes is recovered from them |
| `RequestHash.FrameInjective` | tnats/idempotency.go:24-31 | equal framed bytes come from equal subject and equal data |
| `RequestHash.CopyInto` | tnats/idempotency.go:29-31 | copying into a buffer fills from the offset, as much as fits, and leaves the rest alone |
| `RequestHash.MsgHash` | tnats/idempotency.go:23-45 | the stack-buffer path and the streaming path hash the same framed bytes |
| `RequestHash.HashIdentifiesRequest` | tnats/idempotency.go:23-45 | with a digest free of collisions on the two frames, hashes agree exactly when the requests do |
| `Delivery.ValidateConsumerBinding` | tnats/consumer.go:141-184 | a binding is accepted exactly when all its required fields are set, its numbers positive, its policies known, and its backoff list no longer than the limit and positive throughout |
| `Delivery.BackoffIndex` | tnats/consumer.go:522-532 | for every 64-bit delivery count the index is in range; deliveries walk the list in order and stay on its last element |
| `Delivery.ConsumerRetryDelay` | tnats/consumer.go:494-503 | the delay the error asks for, else the backoff element of that delivery, the last one from there on, else one second; positive for every error and count if the list is |
| `Delivery.DurableDelay` | tnats/tnats_durable.go:70-145 | the delay of a durable's nak in each case: what the error in hand asks for, else the binding's; at the limit always the binding's |
| `Delivery.FirstHeaders` | tnats/consumer.go:542-575 | a dead letter keeps the first value of every header that has one, and no other |
| `Delivery.DecimalRoundTrip` | tnats/consumer.go:575 | decimal printing of a sequence number can be undone |
| `Delivery.MsgIdInjective` | tnats/consumer.go:575 | the dead-letter message ID determines stream and sequence number, even when the stream name contains the separator |
| `Delivery.DlqConsumerMessage` | tnats/consumer.go:542-586 | reports success exactly when the metadata was readable and every request it issued was answered Ok; terminates only if asked to, directly after a publish answered Ok; success with termination asked for ends in one |
| `Delivery.HandleConsumerMessage` | tnats/consumer.go:389-483 | issues exactly the effects of the step-by-step program that the broker model interleaves; without acknowledgements it runs the action once, settles nothing and publishes one faithful letter exactly when the action failed, a subject is set and the metadata is readable; with them and unreadable metadata it issues one nak and does not run the action |
| `Delivery.TraceCases` | tnats/consumer.go:407-483 | the exact effects of a readable delivery: past the limit a disposal without running the action, otherwise the action and then ack, nak with its delay, or at the limit a disposal; a disposal is a term, or publish, term and a nak as far as the requests are granted |
| `Delivery.HandleDurableMessage` | tnats/tnats_durable.go:54-137 | for the same delivery and the same answers, the same effects in the same order as an explicit-ack consumer with a dead-letter subject; only the delays differ, they are the durable's own and positive |
| `Delivery.SettlesAtLimit` | tnats/consumer.go:418-439 | from the limit on, a delivery with readable metadata and granted requests always settles |
| `Delivery.PositiveDelays` | tnats/consumer.go:485-503 | every nak of a validated consumer carries a positive delay |
| `Delivery.TermAfterPublish` | tnats/consumer.go:542-586 | with a dead-letter subject, a term is always directly preceded by a publish that is known to have succeeded |
| `BrokerTheorems.ExecutionBound` | tnats/consumer.go:407-439 | over any run of redeliveries, crashes and failed settlements the action runs at most MaxDeliver times per message under any acknowledging policy |
| `BrokerTheorems.NoMessageLoss` | tnats/consumer.go:389-483 | with a dead-letter subject, one durable per stream, and explicit ack or at most one outstanding message, in every reachable state a message is redeliverable, or acked after a success, or terminated with a stored letter that carries its subject, payload and first headers and says truly at which delivery and why it was given up |
| `BrokerTheorems.OneLetterPerMessage` | tnats/consumer.go:564-585 | within the dedup window two stored letters are the same one exactly when they are for the same message, however often publish succeeds and term fails |
| `BrokerTheorems.LettersPerMessage` | tnats/consumer.go:564-585 | in every run whatever, a message has at most one stored letter plus one for each time the dedup window forgot its ID |
| `BrokerTheorems.BoundedSettlementRun` | tnats/consumer.go:418-431 | if handlers finish and requests are granted from delivery k on, every message is settled once a delivery numbered max(k, MaxDeliver) or more was handled, and is not delivered again |
| `BrokerSuccess.SuccessIsFinal` | tnats/consumer.go:433-483 | for every acknowledging binding, in every run where deliveries of one message do not overlap and the ack of a success takes effect: a message whose action succeeded is never terminated, and until it is settled its ack is under way |
| `BrokerRuns.HandledAlone` | tnats/consumer.go:389-483 | an undisturbed handler in the broker model has on the server exactly the effects that handleConsumerMessage issues |
| `BrokerRuns.DeliveredAlone` | tnats/consumer.go:389-483 | the same from the delivery on |
| `BrokerRuns.RefusedRetry` | tnats/consumer.go:407-431 | past the limit a refused dead-letter publish is followed by a nak, runs nothing and changes nothing on the server |
| `BrokerRuns.RetriesUnbounded` | tnats/consumer.go:407-431 | for every n there is a run with n further dead-letter attempts, after which the message is still pending and its action has not run again |
| `BrokerRuns.SucceededThenDeadLettered` | tnats/consumer.go:449-451 | under every acknowledging binding, a run without overlapping deliveries in which a message whose action succeeded is disposed of because its ack was refused |
| `BrokerRuns.OverlappingDeliveries` | tnats/consumer.go:407-431 | under every acknowledging binding, a run with every ack of a success taking effect in which a slow handler succeeds after a later delivery disposed of the message |
| `BrokerRuns.SuccessAtRisk` | tnats/consumer.go:407-431 | from every state in which a message has succeeded, can be delivered and has no handler at work, a run without overlap and with every ack kept disposes of it |
| `BrokerRuns.AckAllLosesRetry` | tnats/consumer.go:282-293 | under every AckAll binding that allows two outstanding messages a run in which a message whose action never ran is settled by a later ack |
| `BrokerRuns.NoDeadLetterSubject` | tnats/consumer.go:417-431 | under every binding without a dead-letter subject a run in which a message is terminated and no letter is stored |
| `BrokerRuns.LossCondition` | tnats/consumer.go:325-355 | a validated acknowledging consumer accounts for every message in every run if and only if it has a dead-letter subject and either acknowledges explicitly or has MaxAckPending 1 |
| `BrokerRuns.SharedMessageId` | tnats/consumer.go:575 | under every acknowledging binding a run in which a second durable's letter makes the dedup window swallow this one's, so no message loss needs one durable per stream |
| `Subjects.ScanToken` | tnats/tnats_stream.go:108-116 | the inner loops end, stay in bounds and find the end of the token |
| `Subjects.ScanSubjects` | tnats/tnats_stream.go:106-134 | the loop over both token starts ends, stays in bounds and computes the recursive scan |
| `Subjects.SubjectPatternCovers` | tnats/tnats_stream.go:101-134 | for any two strings the index scan equals equality or the token-list scan |
| `Subjects.ObjectNameMatches` | tnats/objectstore.go:219-268 | for any two strings the index scan equals the token-list matcher on the tokens, not counting an empty last one |
| `Subjects.CatchAll` | tnats/objectstore.go:219-222 | no pattern, or a bare tail wildcard, takes every name |
| `Subjects.ScannersAgree` | tnats/tnats_stream.go:101-134 | on well-formed names and patterns both scanners equal the reference matcher and so each other |
| `Subjects.CoverageIsInclusion` | tnats/tnats_stream.go:101-134 | for all well-formed patterns and requests, every literal subject the request matches is matched by the pattern if and only if the scanner says covered and, when the request ends in a tail wildcard, so does the pattern; without tail wildcards coverage is inclusion |
| `Subjects.StarCoversTail` | tnats/tnats_stream.go:123-128 | the exception is real: `a.*` is reported to cover `a.>` and does not include it |
| `Provisioning.AppendMissingServes` | tnats/tnats_stream.go:76-89 | appending keeps the configured list as a prefix and leaves every requested subject served |
| `Provisioning.MissingExtends` | tnats/tnats_stream.go:76-89 | each appended subject was not served when it was appended |
| `Provisioning.MissingRequested` | tnats/tnats_stream.go:76-89 | only requested subjects are appended |
| `Provisioning.AppendMissingIs` | tnats/tnats_stream.go:76-89 | the new list is the old one followed by exactly those subjects |
| `Provisioning.AppendIdempotent` | tnats/tnats_stream.go:76-92 | asking twice appends once |
| `Provisioning.FindServing` | tnats/tnats_stream.go:78-84 | finds whether some configured subject equals or covers the requested one |
| `Provisioning.AddMissing` | tnats/tnats_stream.go:76-92 | the nested loops compute that list, and report a change exactly when some subject was not served |
| `Provisioning.EnsureStream` | tnats/tnats_stream.go:41-99 | success means every requested subject is served, without faults it succeeds, the repeated-change conflict is unreachable, a call that finds everything served changes nothing, and no other stream is touched |
| `Provisioning.EnsureAll` | tnats/tnats_stream.go:41-99 | over any sequence of calls with any faults streams only appear, subject lists only grow at their end, and what a successful call asked for stays served |
| `ConnectionGate.RunInv` | tnats/lazy.go:25-139 | in every interleaving of EnsureConn, Close and connections that break: one gate holder, every dialed connection accounted for, and a registered cancellation for each dial in progress |
| `ConnectionGate.OneOpenConnection` | tnats/lazy.go:25-139 | at most one dialed connection is open, and each is closed, current, or in the hands of the gate holder |
| `ConnectionGate.NoInstallAfterClosing` | tnats/lazy.go:84-139 | over every continuation of every reachable state: nothing is installed once closing is set, and a caller-supplied connection is never replaced, nor closed unless it breaks by itself |
| `ConnectionGate.ClosedForGood` | tnats/lazy.go:221-246 | in every state after some Close has returned there is no current connection and no dialed one is open |
| `ConnectionGate.NoLostCancellation` | tnats/lazy.go:84-98 | whenever the transport is closing while a dial runs, that dial's context is cancelled or a Close is about to cancel it |
| `ConnectionProgress.CloseReturns` | tnats/lazy.go:174-246 | from every reachable state with a Close under way, every run of call steps in which no connection comes up, no caller's context ends and nothing breaks is bounded in length, and it can go on until that Close has returned; a wait for the initial connection ends because its dial was cancelled |
| `ConnectionProgress.CloseComesBack` | tnats/lazy.go:221-246 | so there is such a run at whose end that Close has returned |
| `ConnectionProgress.ReturnsCurrent` | tnats/lazy.go:25-139 | whenever EnsureConn has returned a connection, the run has a moment since the call began at which that connection was current and the transport was neither closing nor misconfigured |
| `ConnectionProgress.LookAnswers` | tnats/lazy.go:25-73 | either look of EnsureConn, in any state: with a live context it returns a connection that is current and open, it returns an error when the context has ended, the transport is misconfigured or closing or its caller-supplied connection is gone, and else goes on to dial; it changes nothing |
| `ConnectionProgress.EnsureReturnsCurrent` | tnats/lazy.go:25-73 | an undisturbed EnsureConn returns the current connection and leaves the transport alone |
| `ConnectionProgress.DialRefused` | tnats/lazy.go:75-92 | a dial begins if and only if there is a URL and the transport is not closing, and registers its cancellation |
| `ConnectionProgress.EnsureDials` | tnats/lazy.go:75-139 | with no current connection, a URL and a free gate, an undisturbed EnsureConn whose dial comes up returns the connection it dialed, which is then current and open, with the gate free again |
| `WorkerDrain.SingleRunner` | tnats/tnats_runner.go:25-31 | two runs of Do never overlap, and the counter is the number of counted goroutines |
| `WorkerDrain.RefusedIffRunning` | tnats/tnats_runner.go:25-28 | in every reachable state a call of Do is refused if and only if another one is running |
| `WorkerDrain.CallbackStarts` | tnats/tnats.go:213-221 | in every reachable state a callback starts a counted worker if and only if the transport is not closing, and changes nothing otherwise |
| `WorkerDrain.CountWhileClosing` | tnats/tnats_runner.go:49-99 | in every reachable state in which closing is set, no continuation up to the next Do raises the count if and only if no Do has an open subscription about to be counted, or is setting up or mounting on a connection that still serves; a Do that has not passed EnsureConn no longer can |
| `WorkerDrain.ShutdownDrains` | tnats/tnats_runner.go:65-90 | from the shutdown's setting of closing until the next Do, counted goroutines only end; when the wait has returned none is left and none starts |
| `WorkerDrain.CloseDuringMount` | tnats/consumer.go:203-213 | a run in which Close comes while Do mounts and after which the count can still rise, so closing alone does not stop it |

## Left out

- The transport's fields in place: ConnectionGate, WorkerDrain, Supervisor and Ledger are state machines on values, because their theorems quantify over interleavings; locks appear as atomic steps and aliasing of the transport object is not captured.
- Ledger: one idempotency key, with linearizable bucket calls and globally fresh tokens; a create with the client's internal retry is one atomic call. Writes to other keys appear only as gaps in the revision numbers.
- Ledger: the claim value is never text that fails to parse, since only coordinators write it; entry values may be.
- Ledger: direct Get and Set on the coordinator, bucket creation, and the migration of the bucket's maximum age.
- LedgerTheorems.Fencing: is about tokens that some Claim returned; a Claim call that was told its write failed may still write its own token again until it returns.
- LedgerRuns.LateWriteOverwrites: takes times at which the default lease still fits the 64-bit clock; otherwise no Complete gets past its extension.
- LedgerRuns.StaleClaimOverwrites: takes times at which the default lease still fits the 64-bit clock; otherwise Complete fails before any write.
- WorkerProgram: a call that a goroutine makes has returned before the goroutine goes on; a worker that crashes simply makes no further move.
- The legacy non-coordinator store, key selection from headers, and encoding of errors and replies.
- Real time: tickers and timeouts are arbitrary steps, and the renewal interval of a third of the lease is not modelled.
- RequestHash: SHA-256 and hex are an arbitrary digest function.
- Delivery: the failure time in a dead letter and the wording of the limit-exceeded error, which differs between consumer and durable; delivery of headers only.
- Delivery: subscription options, filters, rate limits, and the fetch loop that feeds the handlers.
- Broker: one consumer's view of a stream, that is the messages its filter and starting position select; metadata is unreadable or true, retention of the source and dead-letter streams does not remove messages, and delivery counts stay within 64 bits.
- BrokerRuns.SuccessAtRisk: takes a delivery count below the 64-bit limit.
- BrokerRuns.LossCondition: takes MaxDeliver as a positive Go int of 64 bits, as do the runs beside it.
- BrokerTheorems.ExecutionBound: says nothing about AckNone, where the broker does not redeliver and the source keeps no count.
- Provisioning: no writer outside this transport, no configuration modifier, and only the subject list of a stream; the cache of verified streams is not modelled.
- ConnectionGate: a wait for the initial connection may also find it up after its context has ended, since the source reads the two one after the other; Do, which resets the closing flag, is excluded; dial options, callbacks and the JetStream handle are not modelled.
- WorkerDrain: how the connection is dialed (ConnectionGate has that), the subscriptions and the readiness signal; every pull worker, KV watcher and object watcher is the same kind of counted goroutine.
- Embedded server, authentication, TLS and production checks: configuration and I/O.
- KV and object watchers, micro services, publish and request, header propagation, object reads and writes: plumbing with only easy claims.
- The error classification table: settled by reading it.
- The flow bundle in nexssflow: thin wrappers over the transport.
