# Verified model of the turn lifecycle, its event stores and their neighbours

This project models, in Dafny, the part of the platform that decides what a turn is and what is remembered of it:

- **The turn lifecycle.** A turn is a stream of lifecycle events. Replay folds the stream into a state of run attempts, items, tool calls, approvals, requests and a blocking state, and rejects every stream that does not settle exactly once.
- **The lifecycle event store**, from which such streams come: one contiguous stream per turn, idempotent retries, atomic batches, closure after the terminal event, paged replay.
- **The platform event store**: one list of events, four indexes derived from it, a sequence per scope, replay by opaque cursor.
- **The stable fingerprint**, which tells a retry from a conflict in both stores.
- **The artifact store** and the turn diffs kept in it.
- **Text and paths**: git's configuration list and numstat, repo-relative paths, branch names, and the pruning of tool results.

`dafny verify dfyconfig.toml` checks everything.

## How it is organised

Code that the repository writes as expressions over values is functions here (`LifecycleReplay`, `Fingerprint`, `RepoPaths`, `BranchPolicy`). Code that changes objects in place is classes and methods (`LifecycleStore`, `EventStore`, `ArtifactStore`, `TurnArtifactStore`, parts of `GitText` and `Pruner`), each proved equal to a function on values (`LifecycleLog`, `EventLog`, `EventPaging`, `ArtifactRecords`, `TurnArtifacts`). `BatchIsolation`, `ArtifactRetries`, `RetryDecisions` and `LifecycleWitness` hold results that span several of these. `JsonReader` is a reader of JSON written from RFC 8259 alone, against which the printed fingerprint is checked. The theorems are about those functions, over every run.

The centre is `LifecycleHistory`. It defines, without looking at replay's state, when an event may follow a history: what was opened, what was shut, what was never touched. `AcceptedIffLegal` proves that the fold over sixteen fields accepts exactly the streams this definition calls legal. What the design promises of a turn then follows from the history alone (`LifecycleSettlement`).

Thrown errors are `Err` results; a call that throws leaves the state that the code leaves. Ids, timestamps, hashes, authorisation and serialisation are parameters, and the theorems hold for all of them unless a precondition says otherwise.

## What turned out false

- **The fingerprint is not canonical in general.** Keys are sorted with `localeCompare`, under which different keys can compare as equal (for instance two Unicode spellings of one letter); the sort is stable, so such keys keep the order in which they were entered. `TwoCollidingKeys` gives the failing pair. `CanonicalIffNoCollision` proves the exact condition: all key orders of a value share one fingerprint if and only if no object in it has two different keys that are not array indexes and that the collation ties. The other direction has no exception: equal fingerprints always mean equal values up to key order (`EqualFingerprintsAgree`).
- **Scope isolation stops at batches.** A batch is atomic across scopes, so a clash in one scope undoes what the batch would have added to another (`BatchesCoupleScopes`). `BatchIsolatedIff` gives the exact condition for one batch: the scope's own inputs do not clash and would add an event, while inputs of another scope clash. A clash is an input that reuses a key, of the log or of an earlier input, for something else, which a caller can check beforehand (`FailsIffClash`). Over runs without that case isolation holds (`ScopeIsolation`), and without batches it has no condition (`SinglesAreIsolated`).
- **A resent artifact is not always answered with its record.** The idempotency key leads to an artifact id, and a later put may store under an id that its caller names. `ReusedIdBreaksRetry` shows both outcomes: a conflict if the payload differs, another record if it does not. `ResendReturnsFirstIff` and `ResendAfterRun` say for every run what the resend is answered with: the first record if the last thing stored under the id is still that record, another record or a conflict if it is not, and a new artifact after a delete. `OwnerChangesIff` says when such a put takes over a record of another owner.
- **Numstat paths that end in white space are not read as printed**: the line is trimmed before it is split. `PathSurvivesIff` gives the exact condition.

## Model

| member | source | states |
|---|---|---|
| LifecycleHistory.SettlementScan | packages/contract-conformance/src/lifecycle.ts:589-624 | settlement is validated if and only if the status is terminal, the outcome is there and matches it, nothing blocks the turn and no item, approval, attempt, call or request is unsettled |
| LifecycleHistory.StepIffLegal | packages/contract-conformance/src/lifecycle.ts:142-323 | from a state that reflects a history, the next event is applied exactly when the history makes it legal, and the new state reflects the longer history |
| LifecycleHistory.CallsDoneIff | packages/contract-conformance/src/lifecycle.ts:626-645 | the scan of a tool item's calls passes exactly when the history shows at least one call for the item and none still open |
| LifecycleHistory.AllSettledIffNothingOpen | packages/platform-protocol/src/lifecycle.ts:609-666 | the five settlement scans and the blocking check pass exactly when the history has left nothing open |
| LifecycleHistory.Admission | packages/contract-conformance/src/lifecycle.ts:142-180 | the sequence, scope and post-terminal checks pass exactly when the event continues the history with its own position, scope and no earlier terminal event |
| LifecycleHistory.FoldIffLegal | packages/contract-conformance/src/lifecycle.ts:134-157 | a fold from any reachable state succeeds exactly when each event is legal after the ones before it |
| LifecycleHistory.ReachableReflects | packages/contract-conformance/src/lifecycle.ts:134-157 | every state replay reaches is determined by the history: marks of all entities, milestones, kinds, parents and the number of events consumed |
| LifecycleHistory.TerminalOnlyAtEnd | packages/contract-conformance/src/lifecycle.ts:435-449 | a legal history has a terminal turn event nowhere but at its end |
| LifecycleHistory.AcceptedIffLegal | packages/contract-conformance/src/lifecycle.ts:134-157 | replay accepts a stream if and only if it is a legal history that ends with its terminal event |
| LifecycleSettlement.SettlesLast | packages/contract-conformance/src/lifecycle.ts:435-449 | in an accepted stream exactly the last event is terminal, the turn had started, and nothing was open just before it |
| LifecycleSettlement.SettlesExactlyOnceInOrder | packages/contract-conformance/src/lifecycle.ts:346-375 | an accepted stream queues the turn exactly once, later starts it exactly once, settles it exactly once at the end; items start and blocking changes only after the start; all events share one thread and turn and are numbered by position |
| LifecycleSettlement.EveryOpeningIsShut | packages/contract-conformance/src/lifecycle.ts:451-516 | in an accepted stream every started attempt, item or tool call, every requested approval or input and every blocking state is followed by its own ending before the terminal event |
| LifecycleSettlement.OneLife | packages/contract-conformance/src/lifecycle.ts:466-493 | an item or tool call touched by an accepted stream is opened exactly once and shut exactly once, in that order, and marked by no other event |
| LifecycleSettlement.UsedWithinLife | packages/contract-conformance/src/lifecycle.ts:518-540 | item deltas, tool starts, approval requests and input requests fall strictly between the start and the end of their item |
| LifecycleSettlement.CallUsedWithinLife | packages/contract-conformance/src/lifecycle.ts:542-556 | the deltas of a tool call fall strictly between its start and its end |
| LifecycleSettlement.RespondedWhilePending | packages/contract-conformance/src/lifecycle.ts:558-567 | a response falls between a request and its resolution, with no resolution in between |
| LifecycleSettlement.CallLivesInsideItem | packages/contract-conformance/src/lifecycle.ts:626-645 | item start, call start, call end and item end come in this order, before the terminal event |
| LifecycleSettlement.OutcomeIsTheLastEvents | packages/contract-conformance/src/lifecycle.ts:435-449 | the state of an accepted stream has the status its last event asks for and exactly the outcome that event carries, and the two match |
| LifecycleSettlement.BlockingIsTheLastSet | packages/contract-conformance/src/lifecycle.ts:365-375 | after any accepted prefix the blocking state is the last one set; no other event touches it |
| LifecycleSettlement.StepContained | packages/contract-conformance/src/lifecycle.ts:377-400 | every event keeps containment: an active call's parent is an active tool item, and an ended tool item has had a call and has none active |
| LifecycleSettlement.ReachableContained | packages/contract-conformance/src/lifecycle.ts:626-645 | containment holds in every state that replay reaches, however item and call events interleave |
| LifecycleGolden.ToolInterruptIsAccepted | packages/contract-conformance/src/lifecycle-golden-scenarios.ts:167-184 | the golden scenario of an interrupt during tool execution is accepted for any ids and ends in the state with call, item, attempt and turn interrupted |
| LifecycleGolden.ApprovalTurnIsAccepted | packages/contract-conformance/src/lifecycle-golden-scenarios.ts:114-131 | the golden approval scenario, blocked and unblocked, is accepted for any ids and completes with the approval granted |
| LifecycleGolden.InputTurnIsAccepted | packages/contract-conformance/src/lifecycle.ts:736-755 | the input-request fixture, blocked and unblocked, is accepted for any ids and completes with the request resolved |
| LifecycleWitness.AcceptedTurnIsStorable | packages/event-store/src/MemoryLifecycleEventStore.ts:29-107 | every turn that replay accepts, with ids and keys of its own, can be stored in one batch in any sound log that does not know it, and is read back as sent |
| LifecycleWitness.GoldenTurnsAreStorable | packages/contract-conformance/src/lifecycle-golden-assertions.ts:48-66 | the three scenarios are appended to an empty store, read back equal and accepted by replay |
| LifecycleGolden.ItemEndedUnderItsCall | packages/contract-conformance/src/lifecycle.ts:801-803 | ending the tool item while its call runs is refused, whatever the ending and whatever follows |
| LifecycleLog.EveryRunIsSound | packages/event-store/src/MemoryLifecycleEventStore.ts:58-107 | after any run of appends and batches, failures included: the event at index i has sequence i+1 and the stream's turn, a terminal event occurs only last, and the id and key maps index exactly the union of the streams |
| LifecycleLog.InsertKeepsSound | packages/event-store/src/MemoryLifecycleEventStore.ts:72-77 | storing an event that passes the append checks keeps the whole invariant |
| LifecycleLog.PositionsHaveOwnIdentity | packages/event-store/src/MemoryLifecycleEventStore.ts:80-107 | no event id and no idempotency key occurs at two positions, across all turns |
| LifecycleLog.AppendAnswers | packages/event-store/src/MemoryLifecycleEventStore.ts:58-107 | the answer to an append, said of the streams alone: the stored event or a conflict for a known key; otherwise a refusal for a taken id, a settled turn or a wrong sequence, in this order; otherwise the event is added at the end of its stream and no other stream changes |
| LifecycleLog.KeyIdentifies | packages/event-store/src/MemoryLifecycleEventStore.ts:58-62 | colon-free turn ids make the composed key identify turn and idempotency key |
| LifecycleLog.BatchRefinesSingles | packages/event-store/src/MemoryLifecycleEventStore.ts:29-39 | a batch succeeds if and only if appending its events one by one does, with the same log and results; if it fails the log is unchanged |
| LifecycleLog.ResendReturnsStored | packages/event-store/src/MemoryLifecycleEventStore.ts:60-70 | resending a held event returns it and changes nothing, also after the terminal event |
| LifecycleLog.AcceptedIsHeld | packages/event-store/src/MemoryLifecycleEventStore.ts:72-77 | a newly accepted event is held at the position its sequence names |
| LifecycleLog.AppendKeepsHeld | packages/event-store/src/MemoryLifecycleEventStore.ts:72-77 | no append moves or changes an event that is held |
| LifecycleLog.CallIgnoresResends | packages/event-store/src/MemoryLifecycleEventStore.ts:29-39 | a call with exact resends among its events has the log, the results and the error of the call without them, and each resend returns the stored event |
| LifecycleLog.ExactlyOnce | packages/event-store/src/MemoryLifecycleEventStore.ts:58-78 | any number of exact resends anywhere in a history leaves the final store as if they had not been sent; every call has the answer it would have without them, and every resend gets the stored event |
| LifecycleStore.MemoryLifecycleEventStore.constructor | packages/event-store/src/MemoryLifecycleEventStore.ts:20-23 | a new store is empty and valid |
| LifecycleStore.MemoryLifecycleEventStore.Clone | packages/event-store/src/MemoryLifecycleEventStore.ts:109-115 | the draft is another object with the same contents whose map refers to the very same arrays |
| LifecycleStore.MemoryLifecycleEventStore.AppendOneTo | packages/event-store/src/MemoryLifecycleEventStore.ts:58-107 | the in-place append has the result and the contents of the specification, writes no array that existed, and writes nothing when it fails |
| LifecycleStore.MemoryLifecycleEventStore.CheckAppendable | packages/event-store/src/MemoryLifecycleEventStore.ts:80-107 | the checks on the turn's array are those of the specification, in their order |
| LifecycleStore.MemoryLifecycleEventStore.AppendEach | packages/event-store/src/MemoryLifecycleEventStore.ts:33-34 | the loop stops at the first failure with its error, and otherwise has the specified results and contents |
| LifecycleStore.MemoryLifecycleEventStore.AppendBatchOf | packages/event-store/src/MemoryLifecycleEventStore.ts:29-39 | all of a batch or none of it, the invariant kept; a failure leaves the store's map and contents as they were although the draft shares its arrays |
| LifecycleStore.MemoryLifecycleEventStore.Append | packages/event-store/src/MemoryLifecycleEventStore.ts:25-27 | a single append is a batch of one, with the answer and the streams that the previous events call for in every case |
| LifecycleStore.MemoryLifecycleEventStore.ReplayTurn | packages/event-store/src/MemoryLifecycleEventStore.ts:41-56 | the page read with the continuity loop is the specified one, and every valid request on a valid store succeeds |
| LifecyclePaging.PageIsSlice | packages/event-store/src/MemoryLifecycleEventStore.ts:41-56 | an accepted request returns exactly the slice of the stream that follows the cursor, cut at the limit, and the sequence of its last event as the next cursor |
| LifecyclePaging.NeverCorrupt | packages/event-store/src/MemoryLifecycleEventStore.ts:140-153 | no request on a sound log raises the corrupt-stream error |
| LifecyclePaging.ReplayIsDecided | packages/event-store/src/MemoryLifecycleEventStore.ts:118-138 | the limit error for limits outside 1 to 1000, the cursor error for cursors that are negative or no safe integers, and otherwise an answer |
| LifecyclePaging.ChaseIsSuffix | packages/event-store/src/MemoryLifecycleEventStore.ts:41-56 | following the next cursor with any limits ends, and its pages are the rest of the stream without gap or repeat |
| LifecycleReplay.ApplyAllSplits | packages/contract-conformance/src/lifecycle.ts:134-157 | folding a concatenation is folding the first part and going on with the second, faults included |
| LifecyclePaging.ResumeEqualsLive | packages/contract-conformance/src/lifecycle-golden-assertions.ts:107-117 | for every held stream, every accepted cursor and all limits, the prefix folded and then the chased pages folded give the state or fault of the live fold, and the same verdict of replay |
| LifecyclePaging.StoredStreamsPassTheGuards | packages/contract-conformance/src/lifecycle.ts:142-170 | on a stream read back from the store replay's sequence check, turn check and post-terminal guard never reject |
| EventLog.EveryRunAgrees | packages/event-store/src/MemoryEventStore.ts:53-64 | after any run of appends and batches with any generator, failures included, list and indexes agree: id, cursor and key maps are one-to-one with the list, the nth event of a scope has sequence n, and the scope counter is the number of its events |
| EventLog.AppendKeepsAgreed | packages/event-store/src/MemoryEventStore.ts:81-98 | one append, accepted, retried or refused, keeps the agreement |
| EventLog.StoreKeepsAgreed | packages/event-store/src/MemoryEventStore.ts:156-186 | storing an event whose id, cursor and key are new keeps the agreement |
| EventLog.BatchKeepsAgreed | packages/event-store/src/MemoryEventStore.ts:57-64 | the draft of a batch agrees after every input, also when a later one fails |
| EventLog.PositionsAreDistinct | packages/event-store/src/MemoryEventStore.ts:156-169 | two positions of the list differ in event id, in cursor and in idempotency key |
| EventLog.NewEventIsNext | packages/event-store/src/MemoryEventStore.ts:100-113 | a new event carries the input, the id, cursor and time drawn for it, and as sequence one more than its scope has events |
| EventLog.AppendAnswers | packages/event-store/src/MemoryEventStore.ts:81-98 | the answer to an append, in every case, said of the list of events alone |
| EventLog.IndexesAnswerForTheList | packages/event-store/src/MemoryEventStore.ts:156-169 | asking the three maps is asking the list |
| EventLog.BatchAnswers | packages/event-store/src/MemoryEventStore.ts:57-64 | a batch that goes in answers its inputs in their order and draws one set of ids for each event it adds |
| EventStore.MemoryState.Clone | packages/event-store/src/MemoryEventStore.ts:133-141 | the draft is another object with the same list and indexes |
| EventStore.MemoryState.Store | packages/event-store/src/MemoryEventStore.ts:171-186 | list and four indexes take in the event together |
| EventStore.MemoryEventStore.constructor | packages/event-store/src/MemoryEventStore.ts:45-51 | a new store is empty and in agreement |
| EventStore.MemoryEventStore.AppendToState | packages/event-store/src/MemoryEventStore.ts:81-113 | the in-place append has the result and new state of the specification, writes nothing when it fails, and draws an id unless it is a retry |
| EventStore.MemoryEventStore.Append | packages/event-store/src/MemoryEventStore.ts:53-55 | a known key is answered with its event if the fingerprints agree and is a conflict if they differ; a new input is refused for a malformed scope, a taken id or a taken cursor, and is otherwise answered with the event of that input and those ids, with the next sequence of its scope; agreement is kept, a failure changes nothing, and only a new key draws ids |
| EventStore.MemoryEventStore.AppendEach | packages/event-store/src/MemoryEventStore.ts:57-64 | the loop over a batch stops at the first failure with the specified results, draft and draws |
| EventStore.MemoryEventStore.AppendBatchOf | packages/event-store/src/MemoryEventStore.ts:57-64 | all inputs or none; the kth event returned is stored under the key and fingerprint of the kth input, and ids are drawn for exactly the events that are added |
| EventStore.MemoryEventStore.ReplayScope | packages/event-store/src/MemoryEventStore.ts:66-79 | the limit error for limits outside 1 to 1000, the cursor error for a cursor that no event of the scope carries, and otherwise the slice of the scope's stream that follows the cursor, with the cursor of its last event |
| EventPaging.CursorBelongsToScope | packages/event-store/src/MemoryEventStore.ts:188-205 | a cursor is accepted in a scope if and only if an event of that scope carries it; one of another scope is always rejected |
| EventPaging.PageAt | packages/event-store/src/MemoryEventStore.ts:66-79 | a page read at a position is the slice after it, with the cursor of its last event |
| EventPaging.CallGrows | packages/event-store/src/MemoryEventStore.ts:53-64 | every call, failed or not, only adds to the end of the list |
| EventPaging.PageMeaning | packages/event-store/src/MemoryEventStore.ts:66-79 | when a page is returned, and that it follows the place its cursor names |
| EventPaging.CollectIsContiguous | packages/event-store/src/MemoryEventStore.ts:66-79 | in any log that only grows, the pages after a position are the events right after it in the final stream, without gap or repeat |
| EventPaging.RunIsTimeline | packages/event-store/src/MemoryEventStore.ts:53-79 | the states that a client's requests find during any run of appends and batches agree and only grow |
| EventPaging.PagingDuringARun | packages/event-store/src/MemoryEventStore.ts:66-79 | whatever appends and batches a store receives between requests, and whatever the limits, the pages collected so far are a prefix of what the scope holds at the end of the run |
| EventPaging.PagingCatchesUp | packages/event-store/src/MemoryEventStore.ts:66-79 | once the store is at rest, as many requests as the scope has events collect all of it |
| EventIsolation.KeyIdentifies | packages/event-store/src/MemoryEventStore.ts:223-229 | colon-free scope parts make the composed key identify scope and producer key |
| EventIsolation.KnownKeyIsLocal | packages/event-store/src/MemoryEventStore.ts:143-154 | a known key leads to an event of the input's own scope with the producer's key |
| EventIsolation.ScopeDecidesAppend | packages/event-store/src/MemoryEventStore.ts:81-120 | two logs that look alike in a scope answer an input of that scope alike and stay alike |
| EventIsolation.OtherScopeUntouched | packages/event-store/src/MemoryEventStore.ts:81-120 | an append to another scope leaves a scope's lines as they were |
| BatchIsolation.LaneFollows | packages/event-store/src/MemoryEventStore.ts:57-64 | a batch that succeeds leaves each scope, and tells its producers, what the inputs of that scope would alone |
| BatchIsolation.BatchFailsIffLaneFails | packages/event-store/src/MemoryEventStore.ts:57-64 | a batch fails if and only if the inputs of one of its scopes, sent alone, fail |
| BatchIsolation.FailsIffClash | packages/event-store/src/MemoryEventStore.ts:81-98 | a batch fails if and only if an input reuses a key of the log or of an earlier input for something else, and then as an idempotency conflict |
| BatchIsolation.ClashLiesInALane | packages/event-store/src/MemoryEventStore.ts:143-154 | such a clash lies within the inputs of one scope |
| BatchIsolation.BatchIsolatedIff | packages/event-store/src/MemoryEventStore.ts:57-64 | a batch acts on a scope as the inputs of that scope would alone, unless these do not clash and would add an event while inputs of another scope clash; in exactly that case the streams differ |
| BatchIsolation.BatchesCoupleScopes | packages/event-store/src/MemoryEventStore.ts:57-64 | a new input of one scope adds its event alone, but not in a batch with an input of another scope that clashes with the log |
| BatchIsolation.ScopeIsolation | packages/event-store/src/MemoryEventStore.ts:81-120 | over any run of appends and batches in which no batch undoes this scope's inputs, the stream of the scope is that of a run that receives this scope's inputs only, up to generated id, cursor and timestamp |
| BatchIsolation.ReplyIsolatedIff | packages/event-store/src/MemoryEventStore.ts:57-64 | a call tells a scope's producers what it would tell them alone if and only if it does not fail for the sake of another scope |
| BatchIsolation.RepliesAreIsolated | packages/event-store/src/MemoryEventStore.ts:53-64 | over any run without such calls the producers of a scope get the same answers |
| BatchIsolation.SinglesAreIsolated | packages/event-store/src/MemoryEventStore.ts:53-55 | without batches, stream and answers of a scope are isolated with no condition |
| JsonText.QuoteIsUnique | packages/event-store/src/fingerprint.ts:1-3 | a printed string, with its escapes and surrogates, ends in one place only and determines the string |
| JsonText.PrintIsUnique | packages/event-store/src/fingerprint.ts:1-3 | a text that begins with a printed value begins with one value only |
| JsonText.PrintIsInjective | packages/event-store/src/fingerprint.ts:1-3 | two values print alike if and only if they are equal, key order included |
| JsonReader.QuoteIsRead | packages/event-store/src/fingerprint.ts:1-3 | a reader of JSON strings, with all escapes of RFC 8259 and no lone surrogate or control character left bare, reads a printed string back |
| JsonReader.PrintedIsRead | packages/event-store/src/fingerprint.ts:1-3 | a reader of JSON text reads every printed value back |
| Fingerprint.OwnOrderSorts | packages/event-store/src/fingerprint.ts:12-16 | the rebuilt object enumerates index keys by value and then the others in collation order |
| Fingerprint.IndexKeysAreNumerals | packages/event-store/src/fingerprint.ts:12-16 | the keys that objects put first are the plain decimal numerals below 2^32 - 1 |
| Fingerprint.EnumerationOrder | packages/event-store/src/fingerprint.ts:12-16 | a rebuilt object enumerates numerals by their number and then the other keys in collation order |
| Fingerprint.SortThenRecurse | packages/event-store/src/fingerprint.ts:12-16 | sorting looks at keys only, so sorting the values before or after it gives the same entries |
| Fingerprint.CanonKeepsMeaning | packages/event-store/src/fingerprint.ts:5-17 | sorting changes nothing but key order, at every depth |
| Fingerprint.FingerprintIsReadable | packages/event-store/src/fingerprint.ts:1-17 | a fingerprint is JSON text that reads as the value it was made of, up to key order |
| Fingerprint.EqualFingerprintsAgree | packages/event-store/src/fingerprint.ts:1-17 | equal fingerprints imply equality up to recursive reordering of keys, whatever the collation |
| Fingerprint.SameMeaningSameCanon | packages/event-store/src/fingerprint.ts:5-17 | without colliding keys, values equal up to key order are sorted into the same value |
| Fingerprint.SortIsStable | packages/event-store/src/fingerprint.ts:13-14 | an entry stays before another that it does not come after |
| Fingerprint.CollisionBreaks | packages/event-store/src/fingerprint.ts:12-16 | a value with colliding keys at any depth has a reordering that is sorted into another value |
| Fingerprint.CanonicalIffNoCollision | packages/event-store/src/fingerprint.ts:1-17 | all key orders of a value share its fingerprint if and only if no object in it has two colliding keys |
| Fingerprint.FingerprintDecides | packages/event-store/src/fingerprint.ts:1-17 | under a collation without ties, fingerprints are equal if and only if the values are equal up to key order |
| Fingerprint.TwoCollidingKeys | packages/event-store/src/fingerprint.ts:12-16 | two colliding keys entered in either order give one value up to key order and two fingerprints |
| RetryDecisions.LifecycleRetry | packages/event-store/src/MemoryLifecycleEventStore.ts:58-70 | with the stable fingerprint, a known key is answered with the stored event only if the JSON values agree up to key order, and if and only if they do when the stored value has no colliding keys; otherwise it is a conflict |
| RetryDecisions.PlatformRetry | packages/event-store/src/MemoryEventStore.ts:81-98 | the platform store decides in the same way |
| RetryDecisions.LifecycleRetryWithoutTies | packages/event-store/src/MemoryLifecycleEventStore.ts:58-70 | under a collation without ties, retries are exactly the events equal up to key order |
| ArtifactRecords.EveryRunConsistent | packages/artifact-store/src/InMemoryArtifactStore.ts:34-113 | after any run of puts and deletes, ids reused or not: every record has a payload of the length and hash it states, and no payload and no idempotency key dangles |
| ArtifactRecords.PutKeepsConsistent | packages/artifact-store/src/InMemoryArtifactStore.ts:34-54 | every put, accepted, retried or refused, keeps the three maps consistent |
| ArtifactRecords.DeleteKeepsConsistent | packages/artifact-store/src/InMemoryArtifactStore.ts:104-113 | every delete keeps the three maps consistent |
| ArtifactRecords.PayloadIsNeverMissing | packages/artifact-store/src/InMemoryArtifactStore.ts:68-85 | the missing-payload error cannot occur, and the bytes read have the stated length and hash |
| ArtifactRecords.DeletedIsGone | packages/artifact-store/src/InMemoryArtifactStore.ts:104-113 | a successful delete leaves no record, no bytes and no key of the artifact, and every other key leads where it led |
| ArtifactRecords.PutIsReadBack | packages/artifact-store/src/InMemoryArtifactStore.ts:34-54 | after a put its key leads to the returned record, whose hash is that of the bytes sent; a new artifact holds exactly those bytes and its record says what the input said |
| ArtifactRecords.RetryIsAnswered | packages/artifact-store/src/InMemoryArtifactStore.ts:40-48 | resending what is stored changes nothing and, if authorised, returns the stored record |
| ArtifactRecords.FailedPutStoresNothing | packages/artifact-store/src/InMemoryArtifactStore.ts:34-54 | a put that fails leaves records, bytes and keys as they were and uses up at most one number of the sequence |
| ArtifactRecords.PutAnswers | packages/artifact-store/src/InMemoryArtifactStore.ts:34-54 | the answer to a put and the state after it, in every case: ownership and key checks, the record of a known key, authorisation, checksum and metadata checks in their order, and otherwise a new record that says what the input said, with its bytes and its key |
| ArtifactRecords.PayloadIsGuarded | packages/artifact-store/src/InMemoryArtifactStore.ts:68-85 | bytes are returned if and only if the artifact is stored and the caller may read its payload; a refusal if and only if it is stored and the caller may not |
| ArtifactRecords.ListingIsGuarded | packages/artifact-store/src/InMemoryArtifactStore.ts:87-102 | a listing is refused exactly to those who may not list, and otherwise filters the records in their order |
| ArtifactRecords.DeleteIsGuarded | packages/artifact-store/src/InMemoryArtifactStore.ts:104-113 | a delete succeeds if and only if the artifact is stored and the caller may delete it, is refused if and only if it is stored and the caller may not, and changes nothing unless it succeeds |
| ArtifactRecords.StoreKeepsPlaces | packages/artifact-store/src/InMemoryArtifactStore.ts:178-181 | storing under a known id keeps its place in the order, a new id comes last |
| ArtifactRecords.DropClosesGap | packages/artifact-store/src/InMemoryArtifactStore.ts:199-206 | dropping a record moves no other |
| ArtifactRecords.ArtifactIdForm | packages/platform-protocol/src/ids.ts:33-48 | an artifact id is `art_` and an opaque suffix of 6 to 128 characters |
| ArtifactRecords.VisibleMembers | packages/artifact-store/src/InMemoryArtifactStore.ts:87-102 | a listing shows exactly the records of the caller's workspace that the authoriser lets it read |
| ArtifactRecords.MetadataIsGuarded | packages/artifact-store/src/InMemoryArtifactStore.ts:56-66 | a record is returned if and only if it has the id asked for and the caller may read it; nothing is returned if and only if the id is unknown |
| ArtifactRetries.RunFollows | packages/artifact-store/src/InMemoryArtifactStore.ts:188-191 | where an idempotency key leads after a run is decided by what the calls stored for it, stored under its artifact id and deleted |
| ArtifactRetries.ResendAfterRun | packages/artifact-store/src/InMemoryArtifactStore.ts:34-54 | resending an accepted put after any run: if its key still leads to a record, that record is returned if its hash is that of the payload resent and is a conflict if not, with nothing changed; if the key leads nowhere the put stores anew |
| ArtifactRetries.ResendReturnsFirstIff | packages/artifact-store/src/InMemoryArtifactStore.ts:40-48 | the resend returns the first record if and only if its key still leads to that record and the caller is authorised for it |
| ArtifactRetries.UndeletedResend | packages/artifact-store/src/InMemoryArtifactStore.ts:178-191 | unless the artifact was deleted, its key leads to the last record stored under its id |
| ArtifactRetries.UntouchedResend | packages/artifact-store/src/InMemoryArtifactStore.ts:40-48 | if nothing was stored under the id or deleted from it, the resend returns the first record |
| ArtifactRetries.DeletedResend | packages/artifact-store/src/InMemoryArtifactStore.ts:199-206 | after the artifact was deleted, and unless its key was used again, the key leads nowhere |
| ArtifactRetries.ReusedIdBreaksRetry | packages/artifact-store/src/InMemoryArtifactStore.ts:123-139 | after a second put reuses a caller-named id, resending the first is a conflict if the hashes differ and returns the second record if they agree |
| ArtifactRetries.OwnerChangesIff | packages/artifact-store/src/InMemoryArtifactStore.ts:50-53 | a put changes the owner of a stored record if and only if it is admitted under its own ownership and ends up with that record's id; the record and its owner play no part |
| ArtifactStore.MetadataRepository.Get | packages/artifact-store/src/InMemoryArtifactStore.ts:183-186 | the search over the ordered records is the lookup by id |
| ArtifactStore.MetadataRepository.Delete | packages/artifact-store/src/InMemoryArtifactStore.ts:199-206 | the loop drops exactly the keys that lead to the artifact, then its record |
| ArtifactStore.InMemoryArtifactStore.constructor | packages/artifact-store/src/InMemoryArtifactStore.ts:27-32 | a new store is empty and consistent |
| ArtifactStore.InMemoryArtifactStore.RecordFor | packages/artifact-store/src/InMemoryArtifactStore.ts:188-191 | the record an idempotency key leads to |
| ArtifactStore.InMemoryArtifactStore.BuildMetadata | packages/artifact-store/src/InMemoryArtifactStore.ts:115-139 | a checksum mismatch draws no id; otherwise the metadata describes the payload and must parse |
| ArtifactStore.InMemoryArtifactStore.Put | packages/artifact-store/src/InMemoryArtifactStore.ts:34-54 | answer and new state in every case, and consistency is kept |
| ArtifactStore.InMemoryArtifactStore.GetMetadata | packages/artifact-store/src/InMemoryArtifactStore.ts:56-66 | a record is returned if and only if it is stored under the id and the caller may read it; nothing is returned if and only if no record has the id |
| ArtifactStore.InMemoryArtifactStore.GetPayload | packages/artifact-store/src/InMemoryArtifactStore.ts:68-85 | bytes if and only if the artifact is stored and the caller may read its payload, and never the missing-payload error |
| ArtifactStore.InMemoryArtifactStore.ListArtifacts | packages/artifact-store/src/InMemoryArtifactStore.ts:87-102 | the authorised records of the workspace, in the order they were first stored |
| ArtifactStore.InMemoryArtifactStore.Delete | packages/artifact-store/src/InMemoryArtifactStore.ts:104-113 | true if and only if the artifact is stored and the caller may delete it, a refusal if and only if it is stored and the caller may not, nothing changed unless it succeeds, consistency kept |
| TurnArtifacts.KeyOfDiff | packages/artifact-store/src/TurnArtifactStore.ts:28-61 | a put shares the key of a turn's diff if and only if it is a diff of that turn |
| TurnArtifacts.SnapshotKeysIdentify | packages/artifact-store/src/TurnArtifactStore.ts:28-45 | for colon-free turns two snapshots share a key if and only if they share turn and phase |
| TurnArtifacts.FirstSnapshotIsStored | packages/artifact-store/src/TurnArtifactStore.ts:28-45 | the first snapshot of a turn and phase is stored as a record of its own with its bytes, its key and properties naming role, turn, phase and tree |
| TurnArtifacts.FirstDiffIsStored | packages/artifact-store/src/TurnArtifactStore.ts:47-61 | so is the first diff of a turn, with role, turn and number of changed files |
| TurnArtifacts.BothPhasesAreStored | packages/artifact-store/src/TurnArtifactStore.ts:28-45 | the start and the terminal snapshot of a turn are both stored, in either order and with other puts between them |
| TurnArtifacts.EveryRunIsOrderly | packages/artifact-store/src/TurnArtifactStore.ts:28-61 | after any run of snapshot and diff puts, every stored diff is what the key of its turn leads to, and that key leads to nothing else |
| TurnArtifacts.OneDiffPerTurn | packages/artifact-store/src/TurnArtifactStore.ts:47-61 | a turn has at most one stored diff |
| TurnArtifacts.RunPreserves | packages/artifact-store/src/TurnArtifactStore.ts:28-61 | no run of this layer changes or removes a record or its payload |
| TurnArtifacts.LookupFindsTheDiff | packages/artifact-store/src/TurnArtifactStore.ts:63-72 | the stored diff of a turn is what a lookup in its workspace returns; in any other workspace the lookup finds nothing |
| TurnArtifacts.LookupIsGuarded | packages/artifact-store/src/TurnArtifactStore.ts:63-83 | diffs are looked up only for those who may list, and shown only to those who may read the record and its payload |
| TurnArtifacts.FirstDiffWins | packages/artifact-store/src/TurnArtifactStore.ts:47-72 | the first diff accepted for a turn is what every later lookup in its workspace returns, whatever is put afterwards |
| TurnArtifacts.LaterDiffIsDecidedByHash | packages/artifact-store/src/InMemoryArtifactStore.ts:161-171 | a later diff is answered with the first if their hashes agree and refused as a conflict if they differ, changing nothing |
| TurnArtifacts.WorkspaceDiffsMeaning | packages/artifact-store/src/TurnArtifactStore.ts:74-83 | listing a workspace returns one entry for each turn that has a diff there, in order of acceptance, each being what a lookup of the turn returns |
| TurnArtifacts.WorkspaceDiffsGrow | packages/artifact-store/src/TurnArtifactStore.ts:74-83 | later puts only add to the end of that list; entries keep place and content |
| TurnArtifacts.DefaultIdsAreFresh | packages/artifact-store/src/InMemoryArtifactStore.ts:141-145 | the default generator never repeats an id, also beyond six digits |
| TurnArtifacts.DefaultIdForm | packages/artifact-store/src/InMemoryArtifactStore.ts:141-145 | a default id is `art_memory_` and the count in decimal, padded with zeros to six digits |
| TurnArtifactStore.DefaultTurnArtifactStore.StoreSnapshot | packages/artifact-store/src/TurnArtifactStore.ts:28-45 | the put of a snapshot whose key and record `FirstSnapshotIsStored` spells out, on the store in place |
| TurnArtifactStore.DefaultTurnArtifactStore.StoreDiff | packages/artifact-store/src/TurnArtifactStore.ts:47-61 | the specified put of a diff under the key of its turn |
| TurnArtifactStore.DefaultTurnArtifactStore.ReadOne | packages/artifact-store/src/TurnArtifactStore.ts:85-100 | the decoded payload of a diff, or why it cannot be read |
| TurnArtifactStore.DefaultTurnArtifactStore.TurnDiffOf | packages/artifact-store/src/TurnArtifactStore.ts:63-72 | the first listed diff of the turn, read |
| TurnArtifactStore.DefaultTurnArtifactStore.ListWorkspaceDiffs | packages/artifact-store/src/TurnArtifactStore.ts:74-83 | all listed diffs, read in order, or the first failure |
| GitText.ParseConfig | packages/git-service/src/GitService.ts:703-716 | the loop gives the fold of all delimited entries |
| GitText.ConfigRoundTrip | packages/git-service/src/GitService.ts:703-716 | parsing a rendered list of settings gives the last value of each key, values with newlines included; keys without a value are skipped |
| GitText.LastWinsMeaning | packages/git-service/src/GitService.ts:703-716 | a key has the value of the last setting of it that has one |
| GitText.ParsesIff | packages/git-service/src/GitService.ts:753-764 | a line counts if and only if its trimmed text has two parts that begin with a number and then a path that is not empty; the path is all that follows the second tab |
| GitText.ParsesIffNumber | packages/git-service/src/GitService.ts:756-757 | a part is read as a number if and only if, after white space and one optional sign, it has a digit |
| GitText.ParsedValue | packages/git-service/src/GitService.ts:756-757 | the number read is that of the leading digits, with their sign; what follows them is ignored |
| GitText.BinaryIsSkipped | packages/git-service/src/GitService.ts:760-762 | a line with a dash for a count leaves the counts as they were |
| GitText.LineCounts.Merge | packages/git-service/src/GitService.ts:736-751 | the loop updates the counts by the fold of all lines that count |
| GitText.MergeDistributes | packages/git-service/src/GitService.ts:736-751 | merging two outputs in turn is merging them joined by a newline |
| GitText.MergeIsSum | packages/git-service/src/GitService.ts:736-751 | each path ends with what it had plus what the lines report for it, and a path appears if and only if it was there or is reported |
| GitText.TotalsAreConserved | packages/git-service/src/GitService.ts:736-751 | the totals over all paths grow by exactly the sum over the parsed lines |
| GitText.LineIsRead | packages/git-service/src/GitService.ts:753-764 | a printed line is read back with its counts and its path, tabs in the path included |
| GitText.PathSurvivesIff | packages/git-service/src/GitService.ts:753-764 | a printed line is read back as it was if and only if its path is not empty and does not end in white space |
| Texts.TrimMeaning | packages/git-service/src/GitService.ts:756 | trimming takes away white space at both ends and all of it |
| RepoPaths.AcceptedPathStaysInside | packages/git-service/src/validation.ts:24-52 | an accepted path below any normalised absolute root resolves to the root's segments followed by its own |
| RepoPaths.SafeIffExact | packages/git-service/src/validation.ts:66-68 | segments resolve to themselves from any directory if and only if none is empty, dot or dot-dot |
| RepoPaths.AcceptedIff | packages/git-service/src/validation.ts:24-52 | a path is accepted if and only if it has no outer white space, no backslash and no drive, and its segments resolve to themselves; the checks for an empty path and a leading slash add nothing |
| BranchPolicy.PolicyIsSegmentRule | packages/git-service/src/refs.ts:19-34 | the policy accepts a name if and only if its segments obey one segment-wise rule, and returns it unchanged |
| BranchPolicy.PatternsBySegment | packages/git-service/src/refs.ts:78-96 | the forbidden patterns of a name are those of its segments and a final dot |
| BranchPolicy.RedundantChecks | packages/git-service/src/refs.ts:78-96 | the double-slash and trailing-slash checks reject nothing that the segment check would accept |
| BranchPolicy.TrimIsRedundant | packages/git-service/src/refs.ts:19-34 | the trim check rejects nothing that the white-space check would accept |
| Pruner.PartRule | packages/context-pruner/src/index.ts:14-41 | the rule for one part, by the name of its tool and the length of its text |
| Pruner.PrunePart | packages/context-pruner/src/index.ts:14-41 | a part is replaced by its pruned copy, and the object of a shell result is pruned where it is |
| Pruner.PruneToolResults | packages/context-pruner/src/index.ts:6-46 | a `list_files` text over 500 units becomes a summary with the number of its lines, a `read_file` text over 2000 its first and last 1000 around a mark, a `bash` output over 1000 its first and last 500, in place and once in effect; every other part, message and object stays as it is, and none come back when none were given |
| Pruner.CutTwice | packages/context-pruner/src/index.ts:24-38 | cutting the middle out is idempotent although what remains still exceeds the limit |
| Pruner.CutKeepsEnds | packages/context-pruner/src/index.ts:24-38 | a cut text is both ends of the original with the mark between them; a text within the limit is left alone |
| Pruner.CountsLines | packages/context-pruner/src/index.ts:18-21 | the count in a summary is the number of positions at which a line that is not empty begins |
| Pruner.SummaryIsShort | packages/context-pruner/src/index.ts:18-21 | the summary of a listing is never long enough to be summarised again |
| Pruner.PruneTwice | packages/context-pruner/src/index.ts:6-46 | pruning a conversation twice is pruning it once |

## Left out

- Schema parsing: beyond colon-free ids, safe sequence numbers, artifact ids and content types, input is taken as already parsed; a schema failure is one error without its message.
- Error messages and detail records: an error is its code. Which streams, paths and branch names are refused is characterised exactly; the reason attached to such a refusal, which the original gives in its message only, is carried along but not characterised.
- How an event becomes a JSON value: the retry theorems take that mapping as a parameter; all other store theorems hold for any fingerprint.
- Numbers in fingerprints: a number is the numeral it prints as, so negative zero and zero are one value, as they are in the printed text; `undefined`, dates and other values outside JSON are not covered.
- The actual collation tables: `localeCompare` is any total and transitive comparison of keys.
- Object identity of events: an event handed to a store or returned by it is a value here, so the copies made of it at the border are not modelled; the arrays that a lifecycle draft shares with its store are.
- Object identity in the platform store: its draft is a separate object, but the list and maps it copies are values.
- Malformed replay cursors and scopes of the platform store: the schema errors are not modelled; a cursor or scope is any string, and a cursor that no event of the scope carries is not found.
- Interleaving inside one artifact store call: its steps are separated by awaits; calls are modelled as whole steps.
- Stateful authorisers and clocks: authorisation is a function of operation, access and record; a timestamp is an argument of the call.
- TurnArtifactStore.DefaultTurnArtifactStore.ListWorkspaceDiffs: payloads are read one after the other, so of several failures the first in order is reported, while the original reads them concurrently.
- Text in `GitText`, `RepoPaths` and `BranchPolicy` is a sequence of Unicode characters; nothing there depends on its length. Fingerprints and pruning, where it matters, use UTF-16 code units.
- JavaScript number precision in numstat sums: counts are unbounded integers.
- Pruner.PruneTwice: listings are assumed shorter than 2^53 characters, which no string of the platform exceeds.
- Git commands, status and snapshot parsing, remotes, commit messages and the check of a branch by git itself: they run processes, or check a single pattern.
- The Postgres stores, the web applications, HTTP routing, durable objects and the context budget: input and output, or simple sums.
