# Verified model of dataspace-in-a-box

A Dafny model of the parts of the connector where interleaving, retries and broken
transfers make its behaviour hard to see from any one function, with proofs of what it
keeps. `dafny verify dfyconfig.toml` checks all of it.

**The resumable data pull.** A consumer restarts a download as often as it likes. Each
restart examines the partial file, asks the provider for the rest with a Range header,
judges the answer, and discards, appends or publishes. `Pull` is that pull as the
imperative code it is, on a disk and a row, proved equal to a function of what was there
and of everything the environment may do to it: break a copy anywhere, fire the idle timer
or shut down, fail any file operation, refuse the write of the row. `DataPlane` is the
provider's endpoint, header by header and byte by byte. `PullAnswers` says what an attempt makes
of every answer and failure. `PullRuns` and `PullProgress` put the
two together over unbounded runs in which the provider's file is replaced between attempts,
the limit changes, and the peer may answer anything at all. `PullSteps` takes the same pull
one access at a time, and `SingleFlight` proves that under the guard any interleaving of such
pulls leaves what a sequence of whole attempts leaves, so that every result about runs holds
of them. `Headers` holds the range headers of sections 14.2 and
14.4 of RFC 9110, printed and parsed; `Streams` the idle-timeout reader and the bounded copy.

**Contract negotiation.** `NegotiationWorld` composes one provider and one consumer
connector of this code into a state machine. A step is one SQL statement or transaction, one
request attempt, or one reply read; any goroutine may go next; attempts and replies get
lost; and messages that neither connector sent arrive at any time. The states each row commits
are kept as a log. `NegotiationRows`, `NegotiationTerms`, `NegotiationDispatch`,
`NegotiationReRequests`, `NegotiationParties` and `NegotiationQuiet` each prove an invariant of every run and
what it gives; `NegotiationSteps` says of each handler, decision, reaction and push exactly what it
does, and `NegotiationReached` that an agreement can be reached. `AgreementUse` follows a recorded
agreement into the transfers made under it. `Decisions` holds the decision functions. `Callback` is
the retry loop.

**Transfer processes.** `TransferWorld` is one connector's transfers in both roles: request
and transition handlers and the drivers that walk a configured sequence, interleaved. STARTED
and SUSPENDED form a cycle, so a compare-and-swap may succeed on a row that moved away and
back; `TransferRuns` and `TransferSafety` prove what holds all the same, `TransferSteps` what each
handler and driver does and that requests are driven. `TransferDriver` is
the provider's driver as a loop over the store it shares.

**The store.** `Storage` runs each statement in place on the tables. `StoreSteps` takes the steps of
both state machines on a store by those statements and proves that they agree.

**mdscript.** `MdScript` is the extraction of a shell script from a Markdown document as a
loop over its lines, proved against a recursive reading of the document; `MdLines` says what each
line means, character by character; `HereDocuments` is a
reader of here-documents (section 2.7.4 of POSIX.1 XCU, Shell Command Language) that recovers
the document's blocks from the script.

Three places where the code and its documentation differ are modelled as the code is. A
restart that can neither examine nor open the partial still records the length of the file it
was answered with; the bytes of another file then stay beside that length, and a restart in
which nothing fails completes and publishes the mix (`PullProgress.StrandingHappens`). A file
exactly one byte longer than an old limit leaves a partial that already is the whole file;
raising the limit does not resume it but discards it and fetches it again
(`PullProgress.RaisedLimitResumes`). And the length a resumed answer is compared with is the one
looked up when the transfer's message was handled, so the length check protects a resumption
exactly when that is current or too short to be agreed with
(`PullProgress.SafeExactlyWhenCurrentOrShort`).

## Model

| member | source | states |
|---|---|---|
| Headers.RangeRoundTrip | internal/dsp/data_handler.go:28-43 | the offset a consumer asks for is the offset the provider reads, for every offset up to the largest int64, and past it the header reads as absent |
| Headers.ContentRangeRoundTrip | internal/dsp/transfer_consumer_handler.go:400-428 | the provider's satisfied range tells the consumer its first byte and complete length, over all int64 values |
| Headers.UnsatisfiedRangeRoundTrip | internal/dsp/transfer_consumer_handler.go:400-428 | the provider's 416 header tells the consumer the complete length and no start |
| Headers.ParseInt64Exactly | internal/dsp/data_handler.go:38-42 | an integer reads with one optional sign and within 64 bits, and as nothing else |
| Headers.ParseDigitsExactly | internal/dsp/data_handler.go:38-42 | exactly a run of digits reads as a number, the one it prints, leading zeros aside |
| Headers.RangeStartExactly | internal/dsp/data_handler.go:28-43 | "bytes=N-" with N a non-negative integer is read as N, and no other header as any range |
| Headers.ContentRangeExactly | internal/dsp/transfer_consumer_handler.go:400-428 | each half is present exactly if it is a non-negative integer, split at the last slash and the first dash |
| Headers.ContentRangeLacks | internal/dsp/transfer_consumer_handler.go:400-428 | without a dash nothing says where the body starts; without a slash or in another unit the header says nothing |
| Streams.IdleReadKeepsBytes | internal/dsp/idle_reader.go:46-60 | no read loses, repeats or reorders a byte, even the one that finds the timer fired; once fired, never another byte nor another ending |
| Streams.IdleTimeoutReader.Read | internal/dsp/idle_reader.go:46-60 | the reader in place does exactly what that function of its state says |
| Streams.IdleReadEnds | internal/dsp/idle_reader.go:46-60 | a read that gives bytes after the timer fired is the last, with the timer's error; any other ends as the network's read did |
| Streams.TurnEnds | internal/dsp/transfer_consumer_handler.go:808-837 | a turn writes every byte read unless the disk refuses some, and which reads and refusals end the copy, with which error |
| Streams.CopyEndsThere | internal/dsp/transfer_consumer_handler.go:808-837 | a copy ends at its first turn that ends it |
| Streams.CopyWritesAPrefix | internal/dsp/transfer_consumer_handler.go:808-815 | whatever breaks, a bounded copy writes the next stretch of the body within its budget, and ends without error only on a full budget or the true end of a framed body |
| Streams.CopyToFile | internal/dsp/transfer_consumer_handler.go:808-815 | the copy loop appends exactly what that function says to the file |
| DataPlane.CopyUnderRollingDeadline | internal/dsp/data_handler.go:69-104 | the response gains a prefix of the source, a fresh deadline precedes every write, success means all of it was written, and nothing going wrong means success |
| DataPlane.NothingAfterAFailure | internal/dsp/data_handler.go:69-104 | a turn whose deadline cannot be set or whose read fails is the last |
| DataPlane.AWriteEnds | internal/dsp/data_handler.go:69-104 | a failed or short write is the last, with its own error; a whole one ends the copy well exactly at the end of the source |
| DataPlane.HandleData | internal/dsp/data_handler.go:121-317 | for every file and request: a refusal sends no byte; otherwise status, Content-Range and Content-Length are those of the whole file, the suffix from the offset, the unsatisfied range or the first min(k, size) bytes, the body is a prefix of them, all of them when nothing goes wrong, and the audit line appears only then; no byte and no 200, 206 or 416 without everything that AuthorizeExactly asks for, and 403 exactly for another participant's transfer |
| DataPlane.AuthorizeExactly | internal/dsp/data_handler.go:121-211 | a request is granted exactly if nothing fails and the transfer exists, is with the issuer when authentication is on, is STARTED, under a recorded agreement not accepted as consumer, for a dataset configured, valid now and with a file; and which status each refusal has |
| DataPlane.IntendedExactly | internal/dsp/data_handler.go:232-317 | the status, headers and bytes of each of the four answers, spelled out, for every file, offset and header |
| DataPlane.CheckRequest | internal/dsp/data_handler.go:121-231 | every refusal, in order, with its own status; only a STARTED transfer under a servable agreement with a valid, sourced dataset is granted |
| DataPlane.SendRange | internal/dsp/data_handler.go:232-277 | the range branch: 416, a failed seek without a length, or the suffix with matching headers |
| DataPlane.SendInterrupted | internal/dsp/data_handler.go:278-303 | the whole file's length is stated, the first min(k, size) bytes follow, and the connection is severed |
| Pull.TransferHandler.PullTransferData | internal/dsp/transfer_consumer_handler.go:523-886 | one restart, dropped if one is in flight, leaves on this transfer's two files and row exactly what PullOnce says, sends exactly the Range header Asked says, and touches nothing else |
| Pull.TransferHandler.Try | internal/dsp/transfer_consumer_handler.go:560-720 | every exit from the examination of the disk to the judgement of the answer |
| Pull.TransferHandler.Judge | internal/dsp/transfer_consumer_handler.go:675-760 | what each status and header makes of what is held: keep it, discard it, or take the body expecting a length |
| Pull.TransferHandler.Finish | internal/dsp/transfer_consumer_handler.go:808-884 | why a copy stopped, the limit, sync, close, the length and the rename, and the outcome each records |
| Pull.TransferHandler.DiscardPartial | internal/dsp/transfer_consumer_handler.go:504-511 | the recorded count drops to zero exactly when the file is gone |
| PullAnswers.RequestGoesOut | internal/dsp/transfer_consumer_handler.go:562-640 | a request goes out exactly past the endpoint, its guard, the directory and the roster; it asks for the rest of a partial that can be examined and else for the whole |
| PullAnswers.NoAnswerKeeps | internal/dsp/transfer_consumer_handler.go:562-668 | without an answer nothing on disk changes, and which reason each exit records |
| PullAnswers.RefusedAnswer | internal/dsp/transfer_consumer_handler.go:675-760 | every answer that is not taken leaves partial, published file and expected length as they were and counts what is held, save 416 and a continuing 206 of another length, which remove it if they can; and which reason each records |
| PullAnswers.AcceptedAnswer | internal/dsp/transfer_consumer_handler.go:675-790 | an answer is taken exactly if it continues what is held, or nothing is held and it is no refusal; for exactly the length it states |
| PullAnswers.AcceptedBody | internal/dsp/transfer_consumer_handler.go:786-886 | a taken body is published, counted and completed exactly when the file opens, the copy ends by itself within the limit, and sync, close, length and rename succeed; else everything copied stays, counted, with the reason of the first that did not |
| PullAnswers.PartialSurvives | internal/dsp/transfer_consumer_handler.go:675-760 | a partial that can be examined is removed, unless it is published, if and only if the answer is 416 or a continuing 206 that states another length than a known one, and the removal does not fail; whatever stays only grows |
| PullRuns.TakenIsHonest | internal/dsp/transfer_consumer_handler.go:675-760 | an answer the pull takes from this provider states its file's length and carries the file from the held offset on; with a known length, only that length's file |
| PullRuns.EveryRunKeepsConsistent | internal/dsp/transfer_consumer_handler.go:523-886 | over every run of restarts, with replacements of different lengths and breaks anywhere, it holds throughout that a non-empty partial is a prefix of the one representation of the expected length and a published file is one representation in full, if and only if no restart strands the partial: can neither examine nor open it after taking another file's answer |
| PullRuns.RestartKeepsConsistent | internal/dsp/transfer_consumer_handler.go:523-886 | from there one restart publishes nothing but the provider's file of the moment, and keeps the invariant if and only if it does not strand the partial |
| PullProgress.StrandedPublishesAMix | internal/dsp/transfer_consumer_handler.go:775-805 | after any restart that strands a partial shorter than the provider's file, one in which nothing fails publishes the stranded bytes with the rest of another file after them, and reports success |
| PullProgress.StrandingHappens | internal/dsp/transfer_consumer_handler.go:775-805 | a run of two restarts from a consistent start, lengths distinct, stated, saved and current, that publishes a mix |
| PullRuns.RunUnderCeiling | internal/dsp/transfer_consumer_handler.go:808-848 | against any peer, with limits lowered and raised between restarts, no published file exceeds the highest limit and no partial exceeds it by more than one byte |
| PullRuns.AttemptUnderCeiling | internal/dsp/transfer_consumer_handler.go:808-848 | one attempt publishes nothing over its limit and grows no partial past the limit plus one, whatever a higher limit left behind |
| PullRuns.RecordedOutcomeMatchesDisk | internal/dsp/transfer_consumer_handler.go:504-568 | on every exit, a recorded failure has no path or completion and counts the partial left, a success counts the published file: exactly when the partial could be examined or the attempt opened it anyway |
| PullProgress.QuietCopy | internal/dsp/transfer_consumer_handler.go:808-815 | left alone, a copy takes everything its budget allows, and fails only on a body that breaks off within it |
| PullProgress.CalmRestart | internal/dsp/data_handler.go:234-303 | from any reachable disk and row, a restart in which nothing fails publishes the file or comes one restart closer |
| PullProgress.ThreeRestartsPublish | internal/dsp/transfer_consumer_handler.go:710-718 | at most three such restarts publish exactly the provider's file, a 416-discard of a full partial and a simulated interruption included; Needed says how many |
| PullProgress.CalmRunExists | internal/dsp/transfer_consumer_handler.go:523-886 | from every disk and row there is such a run, of every length |
| PullProgress.OverLimitLeaves | internal/dsp/transfer_consumer_handler.go:838-848 | a file over the limit leaves its first limit + 1 bytes and its length on the row |
| PullProgress.RaisedLimitResumes | internal/dsp/transfer_consumer_handler.go:838-848 | raising the limit completes an over-limit partial in one restart if and only if the file is more than one byte over the old limit; else the partial is discarded |
| PullProgress.LargestLimitWraps | internal/dsp/transfer_consumer_handler.go:808-815 | a file within the limit is published if and only if the limit is below the largest int64, where the budget wraps |
| PullProgress.SafeExactlyWhenCurrentOrShort | internal/dsp/transfer_handler.go:585-592 | no replacement by a file of another length can be mixed into a partial if and only if the looked-up length is the current one or is known and no longer than what is held |
| SingleFlight.NoTwoPullsInterleave | internal/dsp/transfer_consumer_handler.go:523-531 | in every interleaving of any number of restarts, two pulls of one transfer never interleave their accesses to its files and row |
| PullSteps.WholePull | internal/dsp/transfer_consumer_handler.go:523-886 | the pull taken one access at a time (examine, remove, record the length, open, each turn of the copy, publish, record the outcome) leaves, left alone, what one attempt leaves |
| SingleFlight.InterleavingsAreSequences | internal/dsp/transfer_consumer_handler.go:523-531 | whatever restarts arrive and however those accesses interleave, a transfer's files and row are at any moment what some sequence of its restarts leaves, run one after the other, or will be once the one pull inside is through |
| Storage.Store.SetState | internal/store/store.go:522-536 | the row moves if and only if it holds the expected state; a missing row and a changed one are told apart; nothing else changes |
| Storage.Store.SetRerequested | internal/store/store.go:545-558 | the flag is set if and only if it was clear, whatever the row's state |
| Storage.Store.SetConsumerState | internal/store/store.go:622-636 | the same compare-and-swap on the consumer's negotiations |
| Storage.Store.SetTransferState | internal/store/store.go:809-823 | the same compare-and-swap on the provider's transfers |
| Storage.Store.SetConsumerTransferState | internal/store/store.go:960-975 | the same compare-and-swap on the consumer's transfers |
| Storage.Store.CreateAgreement | internal/store/store.go:680-691 | a duplicate id fails and overwrites nothing |
| Storage.Store.CreateAgreementIfNegotiationAgreed | internal/store/store.go:728-765 | the agreement is inserted if and only if the negotiation's state is an allowed one in the same transaction, and the state found is reported |
| Storage.Store.RecordConsumerTransferOutcome | internal/store/store.go:1036-1050 | the four outcome columns change together and no other |
| StoreSteps.TryClaim | internal/dsp/negotiation_handler.go:620-635 | on a store that holds the negotiation, the conditional update succeeds exactly when the state machine's does and leaves the rows it says |
| StoreSteps.TryFlag | internal/dsp/negotiation_handler.go:148-192 | the re-request's flag is set exactly when the machine's handler answers 200 |
| StoreSteps.TryRecord | internal/dsp/negotiation_handler.go:504-556 | dispatch's transaction records exactly what the machine's step records |
| StoreSteps.TryInsert | internal/dsp/negotiation_consumer_handler.go:359-375 | the consumer's agreement is inserted exactly when the machine's handler goes on to its update |
| StoreSteps.TryTransition | internal/dsp/transfer_handler.go:529-560 | a transition is stored exactly when the machine's step commits it |
| Callback.PushCallback | internal/dsp/callback.go:106-133 | at most one attempt more than there are waits; true if and only if some attempt succeeds with all before it sent and failed; stops without sending when no credential may be presented; exactly these waits are taken |
| NegotiationRows.RowsOnlyClimb | internal/store/store.go:522-536 | in every run each row's committed states climb strictly in rank: at most five changes, and FINALIZED and TERMINATED are never left |
| NegotiationRows.SwapMeansUnmoved | internal/dsp/negotiation_handler.go:81-635 | in every run, a conditional update that succeeds finds a row that has committed nothing since its goroutine read or wrote it, and makes a transition of the protocol |
| NegotiationRows.StepKeepsRows | internal/dsp/negotiation_handler.go:81-635 | every step of every goroutine, and every message from anyone, keeps the logs paths and the pending updates genuine |
| NegotiationTerms.CommitsOnlyToItsTerms | internal/dsp/negotiation_consumer_handler.go:247-417 | whatever arrives: VERIFIED only for the single agreement that moved the row to AGREED, enforceable and for the requested dataset; ACCEPTED only for the single, enforceable offer; AGREED only with that agreement on record |
| NegotiationSteps.CommitsOnlyToKnownTerms | internal/dsp/negotiation.go:193-261 | in every run ACCEPTED and VERIFIED are committed only for a message whose every permission has no constraint or exactly one: dateTime, lteq, a readable timestamp |
| NegotiationSteps.OfferIsDecided | internal/dsp/negotiation_consumer_handler.go:254-298 | an offer of such terms is accepted exactly under a policy to accept or none, by the first policy for the dataset; any other is rejected, countered or left as the policy says |
| NegotiationSteps.AgreementIsDecided | internal/dsp/negotiation_consumer_handler.go:395-421 | an agreement of such terms for the requested dataset is verified exactly under a policy to verify or none; any other is rejected |
| NegotiationSteps.RequestIsDecided | internal/dsp/negotiation.go:141-157 | the row an initial request creates, and by offer, dataset and validity which message and which update follow |
| NegotiationSteps.AcceptanceIsDecided | internal/dsp/negotiation.go:163-169 | an acceptance is answered by the agreement exactly if the dataset is still configured and valid, else by a termination |
| NegotiationSteps.VerificationIsDecided | internal/dsp/negotiation_handler.go:271-305 | a verification is answered by finalizing, or by a termination exactly if the dataset is configured so |
| NegotiationSteps.ReRequestIsDecided | internal/dsp/negotiation_handler.go:148-192 | a re-request is answered 200 exactly if the flag was clear, which it sets; exactly another offer starts a walk-away |
| NegotiationSteps.MessagesAreTheEdges | internal/dsp/negotiation.go:637-656 | the messages' legality is the protocol's transitions, all of them and no other |
| NegotiationSteps.AcceptedFrom | internal/dsp/negotiation.go:637-656 | which role accepts which message from which states |
| NegotiationSteps.UpdateAnswers | internal/dsp/negotiation_handler.go:223-360 | a handler answers 200 and moves the row exactly if the row has not moved since it was read |
| NegotiationSteps.PushSends | internal/dsp/callback.go:106-133 | a push sends while it may and has attempts, and where each attempt arrives |
| NegotiationSteps.PushReads | internal/dsp/callback.go:106-133 | a 2xx ends the push, a refusal or silence goes on with the attempts left |
| NegotiationSteps.WithdrawsAnOpenOffer | internal/dsp/negotiation_handler.go:568-577 | the delayed termination withdraws exactly an offer still open |
| NegotiationSteps.OpeningGoes | internal/dsp/negotiation_consumer_handler.go:181-203 | the initial request, the pid its reply stores, and the abandonment exactly a policy asks for |
| NegotiationReached.AgreementIsReached | internal/dsp/negotiation_handler.go:497-556 | for every configuration with a valid dataset, the offer made of it and no policy against it, the two connectors can run to FINALIZED on both sides in four attempts, with the agreement on record at both |
| NegotiationDispatch.RecordingEndsOneOfTwoWays | internal/dsp/negotiation_handler.go:504-556 | at its transaction dispatch finds the row past AGREED and records exactly what it says, or finds it TERMINATED and records nothing |
| NegotiationDispatch.AgreementBranchGoesOn | internal/dsp/negotiation_handler.go:504-556 | the agreement branch reaches its transaction whether or not its push or its update succeeds |
| NegotiationDispatch.EveryAgreementIsRecordedOrTerminated | internal/store/store.go:728-765 | once no goroutine is at that transaction, an agreed negotiation is on record or TERMINATED |
| NegotiationDispatch.RecordedMeansAgreed | internal/store/store.go:728-765 | an agreement on record means the row committed AGREED |
| NegotiationParties.RecordedAgreementSays | internal/dsp/negotiation_handler.go:504-556 | in every run the agreement recorded at the provider has the dataset and pid of the consumer's own row, is marked negotiated and names the participant who asked; no other agreement is touched |
| AgreementUse.OnlyTheNegotiatorTransfers | internal/dsp/transfer_handler.go:170-249 | with authentication on, a transfer request that cites it from any other issuer is refused, and in every run every transfer under it is with the participant who negotiated it |
| NegotiationReRequests.OneReRequestIsGranted | internal/dsp/negotiation_handler.go:148-192 | under every interleaving at most one re-request is answered 200 and at most one mismatch termination is started |
| NegotiationParties.VerifiedOnlyTogether | internal/dsp/negotiation_consumer_handler.go:395-456 | whatever is lost or forged, a VERIFIED or FINALIZED consumer has a provider whose row committed AGREED and then VERIFIED |
| NegotiationParties.VerifiedAgreementIsTheProviders | internal/dsp/negotiation_consumer_handler.go:319-417 | in every run, whatever arrives: a consumer past AGREED has on record the one agreement that moved it there, which names the provider's pid and the dataset of both rows unless neither connector sent it; at VERIFIED and FINALIZED it is for that dataset and enforceable in any case |
| NegotiationParties.AgreementRowIsTheProviders | internal/dsp/negotiation_consumer_handler.go:359-375 | so without another negotiation's agreement arriving, the consumer's agreement row names the provider's pid and the dataset |
| NegotiationQuiet.GoesQuiet | internal/dsp/callback.go:93-133 | every run sends at most 1 + 8(k + 1) attempts for k waits, 41 for the shipped four, and its goroutines take at most 40(k + 1) + 29 steps, three more for each message neither connector sent |
| NegotiationQuiet.NothingIsStuck | internal/dsp/negotiation_handler.go:497-635 | a goroutine that has not ended goes on whatever is chosen for it, or the handler it waits for does |
| NegotiationQuiet.StepPaid | internal/dsp/negotiation_handler.go:497-635 | every attempt and every step is paid for out of both rows' remaining ranks, pending goroutines and retries left |
| TransferRuns.StepKeeps | internal/dsp/transfer_handler.go:529-607 | every step keeps logs legal, drivers on their sequences and rows on their agreements, and changes no agreement and no row's terms |
| TransferSafety.DriverWalksItsSequence | internal/dsp/transfer_handler.go:334-447 | the states a driver committed are a prefix of the sequence its agreement resolves to, and it announced those and at most one more |
| TransferSteps.SequenceExactly | internal/dsp/transfer_handler.go:280-292 | the first policy naming the agreement decides, else the first entry of the dataset with a sequence, else STARTED alone |
| TransferSteps.TriggerExactly | internal/dsp/transfer_handler.go:301-314 | the first consumer policy decides state and sequence, STARTED unless it names one; without a policy nothing is sent |
| TransferSteps.RequestIsDriven | internal/dsp/transfer_handler.go:334-447 | from any world, a grantable request can be driven through its sequence as far as that is legal from REQUESTED |
| TransferSteps.StartedByDefault | internal/dsp/transfer_handler.go:280-292 | for every configuration without a policy or sequence for it, a grantable request can be driven to STARTED |
| TransferSteps.LegalExactly | internal/dsp/transfer.go:145-178 | messages may make exactly the protocol's transitions save a start by a provider's counterparty, and own sequences exactly those save a start by a consumer |
| TransferSteps.RequestExactly | internal/dsp/transfer_handler.go:140-249 | a request is granted exactly if it is complete, its agreement is recorded, served, and with the issuer when authentication is on and it names one; and the row that results |
| TransferSteps.MessageExactly | internal/dsp/transfer_handler.go:529-560 | a transition message is accepted exactly by its row, from whoever it is with, from a state it is legal in |
| TransferSteps.ApplicationExactly | internal/dsp/transfer_handler.go:553-607 | it is stored exactly if the row has not moved, and releases exactly the sequence that waits for the state reached |
| TransferSteps.InitiationExactly | internal/dsp/transfer_consumer_handler.go:200-228 | what an initiated transfer needs, stores and releases |
| TransferSteps.DriverExactly | internal/dsp/transfer_handler.go:391-447 | which steps a driver announces, stores and gives up on, in both roles |
| TransferSafety.EveryChangeIsAnEdge | internal/dsp/transfer.go:145-178 | every committed change, by a message or a driver in either role, is a transition of the protocol; COMPLETED and TERMINATED are never left |
| TransferSafety.StartedByOwnDriver | internal/dsp/transfer.go:145-160 | a provider's row that was ever STARTED was first started by this connector's own driver, whose sequence begins with STARTED |
| TransferSafety.UnstartedNeverServes | internal/dsp/data_handler.go:158-161 | a transfer whose sequence does not begin with STARTED is refused its data at every moment of every run, whatever the counterparty sends |
| TransferSafety.TransfersKeepTheirAgreements | internal/dsp/transfer_handler.go:170-249 | each row a request created names a recorded agreement, not one accepted as consumer and with the participant who asked when it names one; neither ever changes |
| TransferSafety.InitiatedTransfersKeepTheirAgreements | internal/dsp/transfer_consumer_handler.go:94-180 | each row this connector initiated names a recorded agreement; neither ever changes |
| TransferSafety.AwayAndBack | internal/dsp/transfer_handler.go:391-447 | from any world with a driver about to store a step from STARTED, messages can suspend and resume the row so that the update succeeds on a row that moved twice |
| TransferSafety.AwayAndBackHappens | internal/dsp/transfer_handler.go:391-447 | there is a run from an empty store in which that happens |
| TransferDriver.PushTransferStep | internal/dsp/transfer_handler.go:391-447 | a step is announced if legal and sendable, and stored if the row is still where the step began, whatever other requests did meanwhile |
| TransferDriver.StepExactly | internal/dsp/transfer_handler.go:391-447 | a step is made exactly if it is a transition of the protocol, may be sent, and finds its row where it began; and where the row is otherwise |
| TransferDriver.DriveTransfer | internal/dsp/transfer_handler.go:334-366 | the walk stops at the first step refused or lost: exactly the steps before it were stored, and at most that one announced besides |
| TransferDriver.UndisturbedWalk | internal/dsp/transfer_handler.go:334-366 | alone, a driver makes exactly the longest legal prefix of its sequence |
| MdScript.OpenFence | cmd/mdscript/main.go:179-189 | a fence is a run of at least three backticks after spaces, with the trimmed rest as its info |
| MdScript.FenceIsItsRun | cmd/mdscript/main.go:179-189 | whatever spaces stand before it and whatever follows, a maximal run of backticks opens a fence if and only if it has three or more |
| MdScript.ParseInfo | cmd/mdscript/main.go:200-212 | the first field is the language unless it says something else, the last title= wins, and expand may stand anywhere |
| MdLines.OpenedExactly | cmd/mdscript/main.go:120-135 | by its fields and index: the last title= names the file, expand anywhere makes it expand, and else exactly a first field sh makes a command |
| MdLines.FieldsExactly | cmd/mdscript/main.go:200-212 | an info string's fields are its maximal runs of characters that are not white space, in order |
| MdLines.ClosesExactly | cmd/mdscript/main.go:193-196 | exactly a line of backticks as long as the fence, with white space around it, closes a block |
| MdLines.FaultExactly | cmd/mdscript/main.go:147-163 | exactly the delimiter with blanks after it, and in an expanding block a line that ends in a backslash, cannot stand |
| MdLines.ShapeExactly | cmd/mdscript/main.go:121-135 | the counts are the numbers of blocks of each kind |
| MdLines.ProseIsSkipped | cmd/mdscript/main.go:110-137 | lines that open no fence contribute nothing, and the first that does opens a block |
| MdLines.NeverClosed | cmd/mdscript/main.go:168-174 | a block that no line closes leaves the document unterminated |
| MdLines.ExtractionExactly | cmd/mdscript/main.go:147-174 | the first fault is reported before a failing read, and that before an open block; anything else is a script |
| MdScript.Extract | cmd/mdscript/main.go:96-175 | the script, the counts, and every refusal with its line and in its order, against the recursive reading of the document |
| MdScript.BlockEndsAtItsFence | cmd/mdscript/main.go:139-145 | a block is all the lines up to the first bare run at least as long as its fence |
| MdScript.BlockFailsAtItsFirstFault | cmd/mdscript/main.go:147-163 | a document is refused at the first line that cannot stand in its here-document, with that line's number |
| HereDocuments.BodyReadsBack | cmd/mdscript/main.go:147-163 | a file block's body is read line for line, to its delimiter and no further, quoted or not |
| HereDocuments.ScriptReadsBack | cmd/mdscript/main.go:96-211 | if extraction succeeds on a document whose commands open no here-documents and whose titles are plain paths, reading the script recovers its blocks in order, every body line for line |

## Left out

- SQLite, its errors and schema: a statement either runs or, for the conditional updates and inserts, fails as its condition says. A storage error in the middle of a handler is modelled only in the data pull and the data endpoint.
- HTTP servers, TLS, JSON decoding, the envelope checks and authentication: messages are decoded records, the issuer is given, and the outgoing-address guard, the roster and the minting of credentials are free choices.
- The negotiation handlers and goroutines are steps of a state machine and not methods, because other goroutines run between their statements; the statements themselves are methods of Storage.Store, and StoreSteps ties the two together.
- One negotiation is followed, between its own two rows. A further initial request creates another provider row with its own identifier, which is not followed.
- NegotiationQuiet.GoesQuiet: counts steps and attempts and not time; the waits between attempts are not modelled beyond their number.
- PullRuns.EveryRunKeepsConsistent: requires the looked-up length to be the row's and a changed length to be saved; a stale looked-up length is the subject of PullProgress.SafeExactlyWhenCurrentOrShort. The exception it states, a partial that can be neither examined nor opened when another file's answer is taken, is the code's: PullProgress.StrandingHappens. A replacement of the same length, and a provider that states no length, are not caught by the code.
- Decisions.OwnTermsAreEnforceable: whether a constraint's right operand reads as a timestamp is a flag, set for the connector's own terms; printing and parsing timestamps is not modelled.
- SingleFlight.InterleavingsAreSequences: a turn of the copy, its read and its write, is one access, and so are the closing checks with the rename; nothing but a pull of the same transfer touches those files.
- NegotiationParties.AgreementRowIsTheProviders: requires that no other negotiation's agreement arrives, since a peer that owns the negotiation can send any; VerifiedAgreementIsTheProviders says what holds when one does.
- The two parties' final states need not agree: a lost verification reply leaves the consumer at AGREED while the provider goes on, and nothing here says otherwise.
- The disk below append, truncate, remove and rename: what a crash leaves is not modelled, nor is a write that reports success and is lost.
- The pull that a start message triggers is not started by the transfers' state machine; Pull models it by itself. Restarts of the connector are runs whose goroutines take no further step.
- HereDocuments.ScriptReadsBack: the reader takes each line of the script on its own, so a quote or a continued command that spans lines is not recognised, nor is a here-document operator inside quotes told apart from a real one; the condition on commands is read the same way.
- Bytes against characters: mdscript works on bytes and the model on characters, which its tests for spaces, backticks and the delimiter do not tell apart.
- Message identifiers, timestamps, log lines, error documents' texts, list functions, the catalog, the management listener, configuration loading, rosters and keys.
