# Fabric reconciliation, modelled and proved

A coordinator compares what operators declared (intents) with what reporters saw (observations), plans the actions that would bring the fabric into line, hands them out as attempts, and follows each attempt to an outcome. Everything it decides survives crashes in a write-ahead journal with snapshots. This project models that runtime as two state machines, the store over bytes on disk and the engine over the tables those bytes mean, joins them into one system whose log they share, models the byte formats and the classifier they rest on, and proves what every run keeps.

`dafny verify dfyconfig.toml` checks everything.

## What is proved

**The store** (`StoreProtocol`, `DurableStore`, `JournalScan`, `SnapshotCodec`). The disk is two byte strings. Appends, short writes, failed flushes, snapshot publication, journal reset and its failures, crashes at any byte of any of these, and reopening are the steps. After every run, a reopen that succeeds holds exactly the fold of the durable log; it succeeds exactly on an openable disk; the durable log is the acknowledged records in order, plus at most one record per interrupted append.

**The engine** (`Engine`, `EngineRuns`, `LogTheorems`, `EngineSafety`, `RunTheorems`, `LineageTheorems`, `EngineStorage`, `EngineService`). Each operation reads the tables and emits records. A run is any sequence of operations, plans, compactions, restarts and stops; of an operation's records any prefix may become durable, because the process stops, because a write fails and the process goes on without being able to write, or because the journal refuses a record for its size and the process goes on writing. The log of every run is lawful, record by record: transitions are legal and terminal states absorbing, identities are never reused, at most one attempt is open per idempotency key, at most one outcome exists per attempt, every attempt was issued on an observation of its own epoch that the log holds, and every outcome that names a generation was committed by a verification of an applied attempt against a held observation of the named verifier. A process that is up owns every open attempt, and no fence in force covers one exactly as long as no fence installation was cut short.

**Both together** (`EngineOnStore`). Every record an operation or a restart hands over is an append of the store, and a stop leaves any part of one on disk. The engine's log and the store's are the same bytes in every run, the process holds the tables its records give, and a store that reopens holds the tables of the whole log.

**The classifier and planner** (`Drift`, `Classifier`, `Explain`, `Planner`, `PlanTheorems`, `PlanSeal`, `PlanIdentity`). Two-cursor walks over ordered tables produce exactly what looking every subject and attribute up by key produces. A plan claims convergence exactly when every managed attribute of every subject agrees on fresh, undisputed evidence. The plan identifier covers decisions and explanations and, up to the writer's ceiling, tells different content apart. While the selected observation is fresh, it depends on scope, policy, intent, that observation, epoch, covering fences and limits, and on neither the boot identity nor the clock; otherwise on the retained observations and the freshness too.

**Dispatch** (`Replan`, `DispatchTheorems`). A plan is accepted exactly when the documents in force are the ones it was built on. In every run, each action a dispatch hands out, new or already open, is one that a plan built in the tables of that moment marks actionable with the same key, subject and kind.

**Runs that reach the corners** (`Scenarios`, `StoreScenarios`). From an empty store: a retry whose evidence is refused, an attempt left open under a fence, a stale plan dispatched, a report refused when it is sent again, an attempt verified by report, an outcome lost; and four ways to a store that does not reopen.

**The codecs** (`Canonical`, `DocumentCodec`, `DocumentStreams`, `LineageCodec`, `JournalFormat`, `SnapshotFormat`, `Wire`, `Json`, `JsonParser`). Encodings decode to what was encoded, digests and keys bind their inputs, accepted journals and frames are byte for byte what a writer produces, the frame reader does not depend on how its input was cut up, and printed JSON is read back.

**The digest** (`Sha256`). The streaming hasher computes the function of FIPS 180-4 under any sequence of updates. Everywhere else the digest is an arbitrary function (`Bytes.Sha256Function`): nothing is known about it, and where equal digests must mean equal content the two byte strings that must not collide are named in the hypothesis (`NoCollision`).

## Where the code does less than its documentation says

- A plan can claim convergence from an observation with partial coverage although the policy requires complete coverage for such a claim: the flag is stored and never read (`PlanTheorems.CoverageRequirementIgnored`, `ConvergedOnPartialCoverage`; the exact condition is `ConvergedProvenExactly`).
- An applied attempt can be reported as verified by its own completer, with no evidence (`LineageTheorems.CompletionVerifiesExactly`, `Scenarios.VerifiedByReportExhibited`). An outcome that names a generation was verified against an observation (`RunTheorems.NamedGenerationWasVerified`, `LogTheorems.VerificationIsBacked`).
- Verification looks up the oldest retained attempt with a key, so a retry cannot be verified while the attempt it replaced is retained (`LineageTheorems.VerificationReachesOldest` is the exact condition, `Scenarios.RetryExhibited` a run).
- A submission sent again is a duplicate exactly when it is stamped with the same epoch and time; otherwise it is refused as conflicting (`LineageTheorems.ResubmissionExactly` is the exact condition, `Scenarios.ResubmissionExhibited` a run).
- Dispatch does not look at the clock again: it accepts a plan whose evidence has expired, when a new plan would act on nothing (`Replan.ReplanActsExactly` is the exact condition, `Scenarios.StaleDispatchExhibited` a run).
- A fence installation that is cut short by a failed write or a refused record returns an error with the fence in force, and the process goes on with an open attempt under it (`RunTheorems.FenceStepExactly` is the exact condition, `Scenarios.FailedFenceExhibited` and `RefusedFenceExhibited` are runs). With a payload bound of at least 1674 bytes plus 42 per retained transition only a write that fails in the middle of the installation does it (`RunTheorems.BreachedExactly`, `NoneEverRevoked`).
- A stop or a failed write between the record that ends an attempt and its outcome loses the outcome for good (`LogTheorems.OutcomeFollowsEnd`, `Scenarios.LostOutcomeExhibited`).
- A compaction after a failed write truncates the journal and then refuses to write its header (`StoreProtocol.CompactLosesHeader` is the exact condition, `StoreScenarios.HeaderLostExhibited` a run); a header cut short by a crash or a short write has the same effect, and no process ever opens that store again (`StoreScenarios.LostForever`).
- A fence whose detail exceeds 800 bytes is journalled before it is validated: it takes no effect, and the store does not reopen until a compaction has passed it (`LineageCodec.ReadPutFence` and `StoreProtocol.CrashRefinement` are the exact conditions, `StoreScenarios.OverlongFenceExhibited` the runs).
- The append path enforces neither the journal size limit nor the table bounds that opening enforces (`StoreProtocol.CrashRefinement` states the exact condition, `Openable`; `StoreScenarios.SizeOutgrown` and `TableOutgrown` are runs for every such limit).
- A plan whose encoding exceeds 64 MiB is identified by what the writer took of it, so plans that differ only in later decisions share an identifier (`PlanSeal.SealedWhole` is the exact condition, `SharedIdentifier` two such plans). A request that names the plan it expects then misses a fence that came or went over a late subject (`PlanIdentity.LateFenceUnseen`).
- A journal that ends in fewer than 24 stray bytes is opened and the bytes are cut off, although no interrupted append leaves them (`JournalScan.DiscardedExactly` is what is cut off, `GarbageDiscarded` an input).

## Modelling choices

Identities are byte strings; ordered maps are Dafny maps enumerated by `SortedKeys`. Counters are naturals with explicit ranges and explicit wrap-around where the code wraps (sequence numbers, attempt identities, epochs). The clock and the boot identity are arguments. One mutex makes each engine operation atomic between stops. In an engine run a compaction only closes or reopens the journal; what it writes is part of the store protocol. The engine theorems speak of runs that hand fewer than 2^64 - 1 records to the store, and the store protocol of fewer than 2^64 - 2 events and payload limits below 2^32. A policy that a plan request brings along is taken to be canonical and within the encoder's ceiling, as classification presumes. The methods of `EngineService` write until a budget is used up, which stands for whatever makes the store stop accepting records.

## Model

| member | source | states |
|---|---|---|
| StoreProtocol.CrashRefinement | src/store.cpp:222-336 | after any run of appends, failed writes, compactions, crashes and reopens, a healthy process holds the fold of the durable log; reopening succeeds if and only if the disk is openable, and then yields that fold and its length |
| StoreProtocol.AcknowledgedIsDurable | src/store.cpp:492-503 | the durable log is the acknowledged records in order plus at most one record for each interrupted append |
| StoreProtocol.ExecuteIsGood | src/journal.cpp:519-589 | in every reachable disk state the journal holds the log from its base on, the snapshot watermark lies between that base and the log's end, and a torn tail is the strict start of one record; or the header is lost |
| StoreProtocol.ReopenIsFold | src/store.cpp:222-336 | opening a disk that holds a log yields the fold of the whole log exactly when sizes, loader bounds and decoders allow it |
| StoreProtocol.SnapshotReplayCommutes | src/store.cpp:632-873 | for every log, cut and journal base, loading the snapshot of the cut and replaying what lies above it equals replaying everything, retention and counters included |
| StoreProtocol.ReplayIsFold | src/store.cpp:317-331 | replay above a watermark equals the fold of the rest of the log from the snapshot state |
| StoreProtocol.CompactLosesHeader | src/journal.cpp:554-589 | a compaction that gets as far as the journal, complete, failed or cut, leaves it without a header if and only if the last write had failed or the new header was cut short |
| StoreProtocol.LostRefuses | src/journal.cpp:384-388 | a journal without its header is refused |
| StoreProtocol.AppendKeepsGood | src/journal.cpp:519-545 | an append that completes, fails or is cut at any byte keeps the disk invariant |
| StoreProtocol.CompactKeepsGood | src/store.cpp:875-910 | publication and reset, complete, cut at any point, or failing at reopening, header or flush while the process goes on, keep the disk invariant |
| StoreProtocol.OpenKeepsGood | src/journal.cpp:464-516 | opening removes exactly the torn tail |
| DurableStore.OpenFiles | src/store.cpp:222-336 | the open routine computes the protocol's open result and leaves the disk as the protocol says |
| DurableStore.OpenJournal | src/journal.cpp:384-516 | the scan loop reads exactly what the journal grammar reads, and reports how much it discarded |
| DurableStore.ReplayRecords | src/store.cpp:317-331 | the replay loop computes replay, and accounts for every record as replayed or skipped |
| DurableStore.TrimAttempts | src/store.cpp:470-484 | erasing the first terminal attempt while over the bound computes the retention function, which keeps every open attempt |
| DurableStore.PopToBound | src/store.cpp:459-468 | popping from the front while over the bound keeps the end of the sequence, as long as the bound allows |
| DurableStore.FirstTerminal | src/store.cpp:473-478 | the scan finds the terminal attempt with the smallest identity |
| DurableStore.Journal.WriteAll | src/journal.cpp:282-302 | a short write leaves its prefix in the file and makes every later write fail |
| DurableStore.Journal.AppendRecord | src/journal.cpp:519-545 | a record is acknowledged exactly when its whole image was written and flushed |
| DurableStore.Journal.Reset | src/journal.cpp:554-589 | the file becomes as much of the header that carries the sequence over as was written, nothing when the last write had failed, and stays as it was when it cannot be reopened; the journal is open afterwards exactly when all of it was written and flushed |
| DurableStore.Store.ApplyPayload | src/store.cpp:342-457 | a payload that validates changes the tables as its record says, and one that does not changes nothing |
| DurableStore.Store.AppendAndApply | src/store.cpp:492-503 | every outcome of an append is a step of the protocol |
| DurableStore.Store.CompactStore | src/store.cpp:875-910 | every outcome of a compaction is a step of the protocol |
| StoreState.TrimmedAttempts | src/store.cpp:470-484 | retention keeps every open attempt unchanged, and ends within the bound or with no terminal attempt left |
| StoreState.ApplyKeepsValid | src/store.cpp:342-457 | every validated record keeps the tables valid: bounded, decodable, each entry under its own key |
| StoreState.DecodeOfPayload | src/store.cpp:342-457 | what a writer encodes for a record decodes to that record |
| StoreState.DecodedEntryValid | src/store.cpp:342-457 | what decodes is valid |
| StoreState.FoldAppend | src/store.cpp:338-340 | folding a concatenation is folding one part after the other |
| JournalScan.ReadOfWritten | src/journal.cpp:384-516 | a header, any contiguous records and the strict start of one more reopen to exactly those records, discarding exactly that start |
| JournalScan.WrittenOfRead | src/journal.cpp:384-516 | an accepted file is byte for byte a header image, contiguous record images and the discarded tail |
| JournalScan.DiscardedExactly | src/journal.cpp:406-470 | the scan takes what is left for an interrupted append if and only if it is shorter than the record fields, or starts with the record magic and is shorter than it claims to be within the payload limit |
| JournalScan.GarbageDiscarded | src/journal.cpp:406-470 | a stray byte at the end is discarded although no interrupted append leaves it |
| JournalScan.StepOverImage | src/journal.cpp:191-242 | the scan accepts a record image with the expected sequence and stops right after it |
| JournalScan.StepOverPrefix | src/journal.cpp:405-463 | every strict prefix of a record image reads as a torn tail |
| JournalScan.StepIsImage | src/journal.cpp:191-242 | an accepted record is its image |
| JournalFormat.ParseHeaderImage | src/journal.cpp:121-170 | a header image parses to its header |
| JournalFormat.ParsedHeaderIsImage | src/journal.cpp:137-170 | a parsed header was a header image |
| SnapshotFormat.ParseSnapshotImage | src/snapshot.cpp:79-143 | a snapshot image parses to its header and payload |
| SnapshotCodec.LoadOfSave | src/store.cpp:632-873 | loading a saved state gives back exactly that state when it is within the loader's bounds, and is refused otherwise |
| Canonical.CanonicalWriter.WriteLE | src/canonical.cpp:41-60 | the shift loop appends the little-endian bytes, or fails for good at the size ceiling |
| Canonical.CanonicalWriter.WriteBytes | src/canonical.cpp:64-78 | a length prefix and the bytes are appended together or the writer has failed |
| Canonical.CanonicalReader.TakeLE | src/canonical.cpp:102-137 | the reader loop yields the number the value-level reader yields and consumes the same bytes |
| Canonical.CanonicalReader.TakeBytes | src/canonical.cpp:157-179 | a prefixed string is read within the remaining bytes and the ceiling, or the reader has failed for good |
| Canonical.ReadPutBytes | src/canonical.cpp:64-179 | a prefixed string is read back and what follows it is left alone |
| Canonical.ReadPutI64 | src/canonical.cpp:58-146 | a signed number survives its unsigned encoding |
| DocumentStreams.EncodeIntent | src/document.cpp:176-196 | the encoder yields the canonical bytes if and only if they fit the ceiling |
| DocumentStreams.EncodeState | src/document.cpp:30-36 | the loop over attributes appends the canonical form of the state |
| DocumentStreams.EncodeValue | src/value.cpp:93-113 | the encoder appends the canonical form of a value |
| DocumentStreams.DecodeValue | src/value.cpp:115-169 | the decoder accepts what the value-level reader accepts, with the same value and rest |
| DocumentStreams.DecodeState | src/document.cpp:38-66 | the decoding loop accepts what the value-level reader accepts: bounded, well-formed, without duplicates |
| DocumentStreams.DecodeSubjects | src/document.cpp:279-297 | the loop over subjects accepts what the value-level reader accepts |
| DocumentStreams.DecodeIntent | src/document.cpp:243-310 | the decoder accepts an intent exactly when it fills its bytes and its digest matches |
| DocumentCodec.ReadPutIntent | src/document.cpp:176-310 | a valid intent is read back from its encoding, whatever follows |
| DocumentCodec.ReadPutObservation | src/document.cpp:198-385 | a valid observation is read back |
| DocumentCodec.ReadPutSubmission | src/document.cpp:222-446 | a valid submission is read back |
| DocumentCodec.ReadPutPolicy | src/policy.cpp:90-203 | a canonical policy is read back, its digest included |
| DocumentCodec.ReadPutValue | src/value.cpp:93-169 | a valid attribute value is read back |
| DocumentCodec.IntentDigestBinds | src/document.cpp:70-87 | two valid intents with one digest are one intent, unless the digest collides on their encodings |
| DocumentCodec.ObservationDigestBinds | src/document.cpp:89-108 | the same for observations, stamps included |
| DocumentCodec.PolicyDigestBinds | src/policy.cpp:66-88 | the same for policies |
| DocumentCodec.CanonicalisePolicy | src/policy.cpp:31-64 | canonical lists are strictly ascending and have the same elements |
| DocumentCodec.CanonicalIsFixed | src/policy.cpp:31-64 | a stored policy is its own canonical form |
| LineageCodec.ReadPutAttempt | src/store.cpp:69-169 | a valid attempt is read back, transitions and authority included |
| LineageCodec.ReadPutAuthority | src/authority.cpp:61-142 | an authority vector is read back, unset bindings included |
| LineageCodec.ReadPutOutcome | src/lineage.cpp:150-228 | a valid outcome is read back |
| LineageCodec.ReadPutFence | src/lineage.cpp:93-148 | a fence is read back if and only if its detail is at most 800 bytes |
| LineageCodec.IdempotencyKeyBinds | src/plan.cpp:104-121 | equal keys mean equal scope, subject, action, definition, intent and observation bindings, desired and expected state, unless the digest collides on one of three named pairs |
| Model.ValidTextHasNoTraversal | src/identity.cpp:73-114 | no path component of valid identity text is empty, a dot or two dots |
| Drift.SelectionIgnoresOrder | src/drift.cpp:314-343 | two candidate lists with the same members select the same evidence or the same conflict, when no two different candidates tie in generation, receipt time, reporter and digest |
| Drift.TiesFollowOrder | src/drift.cpp:317-324 | of two candidates that tie in all four, the first listed is selected |
| Drift.SelectedIsMaximal | src/drift.cpp:317-324 | no candidate exceeds the selected one in generation, receipt time and reporter |
| Classifier.SelectCurrentObservation | src/drift.cpp:314-343 | the two loops compute the selection: newest candidate, or conflict when a peer differs |
| Classifier.SelectCurrentIntent | src/drift.cpp:283-312 | the same for intents |
| Classifier.BinarySearch | src/policy.cpp:214-222 | on a canonical list the binary search is membership |
| Classifier.WalkAttributes | src/drift.cpp:52-137 | the two-cursor walk yields the differences, gap and unsupported flags that looking up every key of the union yields, and one comparison per key |
| Classifier.RankedReason | src/drift.cpp:148-184 | the ranking loop names the strongest kind of difference present |
| Classifier.ManagedAttributes | src/drift.cpp:535-545 | the differences of a one-sided subject are its managed attributes in order |
| Classifier.MergeSubjects | src/drift.cpp:525-611 | the walk over both subject tables yields the lookup record of every subject of the union, in order, with one visit each |
| Classifier.ClassifyScope | src/drift.cpp:355-616 | the classifier, refusals and every evidence branch included, equals the lookup specification |
| PlanTheorems.OneRecordPerSubject | src/drift.cpp:525-611 | with decidable evidence every subject of either document has exactly one record, in ascending order, and it is the lookup record |
| PlanTheorems.GapIsNeverADifference | src/drift.cpp:520-556 | a subject or attribute that is merely not covered is unknown, never missing, unexpected or mismatched |
| PlanTheorems.ConvergedExactly | src/drift.cpp:598-608 | a subject is converged if and only if both sides hold every managed attribute with equal supported values |
| PlanTheorems.ConvergedProvenExactly | src/engine.cpp:695-768 | a plan claims convergence if and only if the scope has an intent and fresh undisputed evidence, is not truncated, and every subject of either document is settled; such a plan holds nothing but satisfied decisions |
| PlanTheorems.CoverageRequirementIgnored | src/engine.cpp:727-768 | the coverage requirement of the policy never changes whether convergence is claimed |
| PlanTheorems.ConvergedOnPartialCoverage | include/summon/fabric_reconciliation/plan.hpp:86-88 | convergence is claimed for a subject with a managed attribute from an incomplete observation under a policy that requires complete coverage |
| PlanTheorems.ActionableIsAuthorised | src/authority.cpp:175-257 | an actionable decision is bound to the live incarnation, to evidence received in its epoch, to the stored policy and to an unfenced subject, and its action fits its drift |
| Replan.AcceptedExactly | src/engine.cpp:783-823 | dispatch accepts a plan if and only if the incarnation, policy, intent and selected observation in force are the very ones it was built on, unless the digest collides on a named pair |
| Replan.DispatchAgreesWithReplan | src/engine.cpp:777-834 | an action of an accepted plan that is not fenced now is, field for field, the decision of a plan built at any time its evidence is fresh |
| Replan.FreshAtOwnReading | src/engine.cpp:783-823 | an accepted plan's evidence is fresh at the plan's own clock reading, whatever was committed since |
| Replan.ReplanActsExactly | src/engine.cpp:777-834 | of an accepted plan, an unfenced action is actionable in a plan built later if and only if the evidence is still fresh then |
| Replan.ActsUnderStoredPolicy | src/engine.cpp:544-546 | a plan holds an action only when its policy is the stored one |
| PlanIdentity.ContentDependsOnSelected | src/plan.cpp:10-158 | at any two clock readings at which the selected observation is fresh, plan content and identifier, explanations included, depend on scope, policy, intent, selected observation, epoch, covering fences and limits only |
| PlanIdentity.ContentDependsOnStream | src/plan.cpp:10-158 | with disputed, missing or stale evidence they also depend on the retained observations, and on the clock only through the freshness it gives |
| PlanIdentity.PlanIdTellsApart | src/engine.cpp:463-773 | plans built from any two valid tables have one identifier if and only if they have one content, while their encodings fit under the ceiling and unless the digest collides on them |
| PlanIdentity.LateFenceUnseen | src/server.cpp:285-288 | a plan cut at its action limit whose first decisions overflow the writer keeps its identifier when fences over later subjects come or go |
| PlanSeal.PlanIdBinds | src/plan.cpp:10-158 | two plans whose encodings fit under the ceiling have one identifier if and only if they have one content, every explanation step included, unless the digest collides on their encodings |
| PlanSeal.SealedWhole | src/canonical.cpp:19-90 | the writer takes the whole encoding, and the identifier is its digest, if and only if it fits under the ceiling |
| PlanSeal.PlanIdForgets | src/plan.cpp:153-158 | plans that differ only in decisions after the writer overflowed have one identifier |
| PlanSeal.SharedIdentifier | src/plan.cpp:153-158 | for any two different decisions, two plans that differ in one of them and share an identifier, whatever the digest function |
| PlanSeal.Seal | src/plan.cpp:153-158 | the writer calls, loops and wrapped counts of sealing compute the identifier |
| Explain.Explanation.Add | src/explain.cpp:9-18 | an explanation keeps the first steps it was offered, up to its bound, and knows whether any was dropped |
| Explain.AddDeltas | src/engine.cpp:627-640 | the loop over differences offers one step per managed difference, in order |
| EngineService.BuildPlan | src/engine.cpp:473-775 | the planning loops compute the plan specification, refusals included |
| EngineService.DecisionsOf | src/engine.cpp:558-693 | the decision loop decides the first records up to the bound, with their explanations, and reports truncation |
| EngineService.ExplainDecision | src/engine.cpp:572-672 | the explanation of a decision is the drift reason, the authority verdict with its failed components, and the steps of its drift class, up to the bound |
| EngineService.JudgePlan | src/engine.cpp:695-768 | the verdict, its reason and its explanation are those the decisions and the evidence call for |
| EngineService.FenceHoldsFor | src/engine.cpp:217-232 | the scan finds a covering fence exactly when one is in force |
| EngineService.FindOpen | src/engine.cpp:835-859 | the scan finds the open attempt of this epoch with a key, if there is one |
| EngineService.ScanStream | src/engine.cpp:370-398 | the scan finds the same submission, and otherwise tells whether the reporter sent something newer |
| EngineService.ReconciliationEngine.Restart | src/engine.cpp:112-152 | a restart writes the records of the boot operation, or a prefix of them when the store stops |
| EngineService.ReconciliationEngine.CloseEach | src/engine.cpp:174-209 | the closing loop writes one move and one outcome per attempt, in order |
| EngineService.ReconciliationEngine.RecordObservation | src/engine.cpp:341-407 | recording answers and writes as its operation says |
| EngineService.ReconciliationEngine.DispatchPlan | src/engine.cpp:777-909 | the dispatch loop hands out, counts and writes exactly what its operation says |
| EngineService.ReconciliationEngine.CompleteAttempt | src/engine.cpp:931-1006 | completion answers and writes as its operation says |
| EngineService.ReconciliationEngine.VerifyAttempt | src/engine.cpp:1008-1121 | verification answers and writes as its operation says |
| EngineService.ReconciliationEngine.InstallFence | src/engine.cpp:1123-1191 | installing a fence writes it and then the end of every attempt it revokes |
| EngineRuns.BootServes | src/engine.cpp:112-211 | every record of a restart is lawful, and a complete restart leaves no attempt open |
| EngineRuns.FenceRevokes | src/engine.cpp:1146-1189 | every record of a fence installation is lawful, and every attempt it ends gets its outcome |
| EngineRuns.FenceExactly | src/engine.cpp:1123-1191 | after any number of the records of a fence installation, no fence in force covers an open attempt if and only if none took effect or all but possibly the last outcome did |
| EngineRuns.PrefixKeeps | src/engine.cpp:72-1203 | however few of an operation's records take effect, every open attempt is this incarnation's own, and without a new fence none comes under one |
| EngineRuns.CompleteProper | src/engine.cpp:931-1006 | completion writes lawful records and leaves no ended attempt without its outcome |
| EngineRuns.VerifyProper | src/engine.cpp:1008-1121 | verification writes lawful records, its outcome resting on an applied attempt of this incarnation and a held newer observation |
| EngineRuns.CommitLinked | src/store.cpp:342-457 | every lawful record keeps the tables in step with the history: open attempts retained, one per key, identities below the counter |
| EngineSafety.DispatchProper | src/engine.cpp:827-906 | dispatch issues lawful attempts under free keys and fresh identities, unfenced and on observations the log holds |
| EngineSafety.RefusalLeavesNothingPending | src/journal.cpp:528-531 | a record refused for its size never separates the end of an attempt from its outcome |
| RecordSizes.OutcomeFits | src/journal.cpp:528-531 | an outcome is never too large once the record that ended its attempt was taken |
| RecordSizes.AttemptsFit | include/summon/fabric_reconciliation/limits.hpp:48-49 | 1674 bytes plus 42 per retained transition are room for any attempt |
| EngineSafety.RunIsSafe | src/engine.cpp:72-1203 | every state of every run is safe, whatever record a stop falls after, a write fails at or the journal refuses, and while a process whose writes fail goes on |
| RunTheorems.RunTheorem | src/engine.cpp:72-1203 | the log of any run is lawful, at most one attempt is open per key, no open attempt is evicted, and a process that is up owns every attempt it holds open, none of them under a fence unless a fence installation was cut short |
| RunTheorems.FenceStepExactly | src/engine.cpp:1146-1189 | in every run, a fence installation the process survives leaves no open attempt under a fence if and only if it was not cut short between its fence and its last end |
| RunTheorems.BreachedExactly | src/engine.cpp:1146-1189 | with room for attempt records, an event leaves a fence installation incomplete in a process that goes on if and only if one of its writes fails after the fence and before the last end |
| RunTheorems.NoneEverRevoked | src/engine.cpp:1146-1189 | with that room, a run without such an event never holds an open attempt under a fence |
| RunTheorems.NamedGenerationWasVerified | src/engine.cpp:1008-1121 | every outcome of any run that names a generation was written by a verification: the event that made that record durable verified an attempt of the live incarnation held applied, citing a fresh observation the store held from the named verifier |
| LogTheorems.OneOutcomePerAttempt | src/engine.cpp:992-1000 | no two outcomes of a log name one attempt |
| LogTheorems.IdentitiesNeverReused | src/engine.cpp:864-867 | no two issue records of a log share an identity |
| LogTheorems.EndIsFinal | src/engine.cpp:960-964 | an attempt that has ended never moves again |
| LogTheorems.OutcomeFollowsEnd | src/engine.cpp:986-1000 | the record that ends an attempt is followed by its outcome, or by the next incarnation, and then no outcome ever follows |
| LogTheorems.MovesAreLegal | src/engine.cpp:15-44 | every move is legal from the state an earlier record left, is the last transition the attempt records, changes nothing else, and an attempt of an earlier epoch is only abandoned or interrupted |
| LogTheorems.VerifiedWasApplied | src/engine.cpp:31-33 | an attempt is verified only after it was applied, in the epoch that issued it |
| LogTheorems.VerificationIsBacked | src/engine.cpp:1055-1116 | an outcome that names a generation comes right after an attempt of the epoch in force, left applied by an earlier record, was verified or failed, and the log holds an observation of its scope with that generation, newer than the one the action was decided on |
| LogTheorems.IssuedOnOwnEvidence | src/engine.cpp:864-886 | every attempt is issued by the incarnation in force under a free key, on an observation the log already holds, of its scope and epoch, that its authority names field for field |
| LogTheorems.IssuedOrigin | src/engine.cpp:864-886 | every attempt goes back to one issue record and has kept its identity since |
| LogTheorems.EpochsRise | src/store.cpp:614-630 | epoch records strictly increase |
| LineageTheorems.RedispatchIsSilent | src/engine.cpp:827-862 | dispatching a plan again hands out the same actions and writes nothing |
| LineageTheorems.CompletionVerifiesExactly | src/engine.cpp:931-1006 | a completion commits a verified outcome if and only if it is an acceptable report of an applied attempt as verified, and never names evidence |
| LineageTheorems.VerificationNamesEvidence | src/engine.cpp:1008-1121 | an accepted verification is of an applied attempt of the live incarnation and names the generation of a fresh held observation from its verifier, newer than the action's own; the verifier is not the applier when independence is required |
| LineageTheorems.VerificationReachesOldest | src/engine.cpp:1017-1029 | evidence that passes every check for an attempt is accepted for it if and only if no older retained attempt has its key |
| LineageTheorems.RetryCannotBeVerified | src/engine.cpp:1017-1043 | no evidence is accepted for a retry while the ended attempt with its key is retained |
| LineageTheorems.ResubmissionExactly | src/engine.cpp:381-391 | a repeated submission is a duplicate if and only if epoch and stamp are the same, and conflicting otherwise |
| EngineStorage.RunIsStorable | src/engine.cpp:72-1203 | in every run on typed arguments every durable record is one replay accepts, or a fence with overlong detail |
| EngineStorage.StoredAsCommitted | src/store.cpp:492-503 | a stored record has the effect its operation meant, and decodes if and only if it is valid |
| EngineStorage.SameLogSameTables | src/store.cpp:222-336 | whatever happens to the files, a store whose durable log is the engine's reopens with the tables of the run |
| EngineOnStore.SystemIsSound | src/store.cpp:492-503 | every run of engine and store together, stops inside a record of an operation or of a restart included, is a run of each with one log between them, the process holding the tables its records give |
| EngineOnStore.RunSurvivesRestart | src/store.cpp:222-336 | after any such run, stops, failed writes, refusals and compactions included, a store that reopens holds exactly the tables of the engine's log |
| DispatchTheorems.DispatchedIsReplanned | src/engine.cpp:777-909 | in every run, each action a dispatch hands out, new or already open, is actionable in a plan built in the tables of that moment at the old plan's clock reading, with the same key, scope, subject and kind, unless the digest collides on what is compared |
| DispatchTheorems.RunProvenance | src/engine.cpp:777-909 | in every run every plan held was built in tables the log passed through, and every attempt was issued for an action of a plan held |
| Scenarios.RetryExhibited | src/engine.cpp:1017-1043 | a run in which evidence acceptable for an applied retry is refused while the failed attempt is retained |
| Scenarios.FailedFenceExhibited | src/engine.cpp:1146-1189 | a run in which a failed write leaves an open attempt under a fence in force |
| Scenarios.RefusedFenceExhibited | src/journal.cpp:528-531 | for every payload bound from 323 to 364 bytes and at least two retained transitions, a run in which a refused record leaves an open attempt under a fence while the process goes on writing |
| Scenarios.StaleDispatchExhibited | src/engine.cpp:777-834 | a run in which a plan is dispatched and its action issued although its evidence has expired |
| Scenarios.ResubmissionExhibited | src/engine.cpp:381-391 | a run after which a committed report is a duplicate with its own stamp and refused as conflicting one millisecond later |
| Scenarios.VerifiedByReportExhibited | src/engine.cpp:931-1006 | a run in which an attempt is committed as verified with no observation behind it |
| Scenarios.LostOutcomeExhibited | src/engine.cpp:986-1000 | a run in which an attempt ends and the next record is the next epoch |
| StoreScenarios.LostForever | src/journal.cpp:384-388 | once the header is lost and the process is down, no continuation of the run opens the store again |
| StoreScenarios.HeaderLostExhibited | src/journal.cpp:554-589 | one failed write and a compaction lose the header of any new store for good |
| StoreScenarios.OverlongFenceExhibited | src/engine.cpp:1123-1145 | for every fence with an overlong detail: the installation answers with an error and has journalled it, the store is refused before a compaction has passed the record, and opens without the fence after |
| StoreScenarios.SizeOutgrown | src/journal.cpp:519-545 | for every journal size limit, a run of acknowledged records after which the store does not reopen |
| StoreScenarios.TableOutgrown | src/store.cpp:847-850 | for every scope limit below 28561, one fence more than the loader takes, all acknowledged, and a compaction: the store does not reopen |
| Wire.ReadOfWrittenFrame | src/wire.cpp:109-198 | a valid frame is read back from its image, whatever follows |
| Wire.WrittenOfReadFrame | src/wire.cpp:129-236 | an accepted frame is byte for byte its image |
| Wire.StreamIsExact | src/wire.cpp:205-236 | a stream is exactly the images of the frames read from it and what is left over |
| Wire.ParseOfImages | src/wire.cpp:205-236 | the images of any valid frames and the start of one more parse to those frames, the start left over |
| Wire.AnyChunking | src/wire.cpp:191-236 | under any interleaving of feeding and reading the frames handed out are the first frames of the whole stream, and a failure is the stream's own |
| Wire.DriveReader | src/wire.cpp:191-236 | a reader driven through a list of calls hands out and fails as that list says |
| Wire.DrainedReadersAgree | src/wire.cpp:191-236 | two drained readers of one stream agree on frames and failure, however the stream was cut |
| Wire.FrameReader.Next | src/wire.cpp:205-236 | one call reads one frame, waits, or fails, and a failed reader never changes |
| Wire.FrameReader.Feed | src/wire.cpp:191-196 | bytes are appended unless the reader has failed |
| Json.DumpReadsBack | src/json.cpp:36-552 | parsing printed text gives back the value, at any indent, for every real-free value within the limits; a small unsigned number comes back as an integer |
| Json.ValueReadsBack | src/json.cpp:68-206 | the same for a value at any depth before any legal continuation |
| Json.StringReadsBack | src/json.cpp:258-335 | every byte string is read back from its escaped form |
| Json.IntegerReadsBack | src/json.cpp:337-416 | every 64-bit integer is read back in the type its magnitude gives it |
| Json.CanonicalIgnoresOrder | src/json.cpp:517-552 | values that differ only in member order at any level have one canonical form |
| Json.CanonicalTextIgnoresOrder | src/json.cpp:740-744 | and one canonical text |
| JsonParser.Parser.Run | src/json.cpp:36-52 | the parser yields exactly what the grammar assigns to the text, limits and trailing content included |
| JsonParser.Parser.ParseValue | src/json.cpp:69-105 | from any position and depth the parser reads the value, the rest and the item count the grammar reads, or refuses where it refuses |
| JsonParser.Parser.ParseElements | src/json.cpp:181-206 | the pushing loop reads the elements the grammar reads |
| JsonParser.Parser.ParseMembers | src/json.cpp:128-169 | the pushing loop reads the members the grammar reads, duplicate keys refused |
| Json.ScanString | src/json.cpp:258-335 | the scanning loop reads the string the grammar reads |
| Json.AppendEscaped | src/json.cpp:424-451 | the escaping loop appends the escaped form |
| Sha256.Hasher.Update | src/hash.cpp:108-141 | updating appends to the message: whole blocks are folded into the state, the rest is buffered |
| Sha256.Hasher.Compress | src/hash.cpp:61-106 | one block advances the hash value as section 6.2.2 of FIPS 180-4 says |
| Sha256.Hasher.Final | src/hash.cpp:147-169 | the padding loop ends, pads as section 5.1.1 of FIPS 180-4 says, and the digest is that of the message |
| Sha256.HashOf | src/hash.cpp:171-175 | hashing at once computes the digest |
| Sha256.HashOfChunks | src/hash.cpp:108-169 | any sequence of updates computes the digest of the concatenation |

## Left out

- Sockets, threads, sessions and the request dispatch of the server and client; only the frame codec is modelled.
- Operating-system calls: store locking, staging file, rename and directory handling. Rename is atomic and durable, and a flush is a durability point.
- Read-only opening of a store and of the engine, beyond the torn-tail refusal of `OpenJournal`.
- Plan identifiers as hex text, the rendering of whole plans and explanations, statistics counters and boot reports.
- Floating-point numbers in JSON; the parser model keeps their literal.
- The conversion of documents to and from JSON.
- A transition limit of zero per attempt: the lineage codec theorems and `RunIsStorable` need room for one.
- The `id` inside a subject, which repeats its key in the table.
- Missing candidates and missing option values of the classifier, which it skips or defaults.
- Policy, intent and fence-clearing operations of the engine, the observation, submission, policy, lineage and snapshot codecs, number literals of the JSON parser, and the JSON printer outside its string loop are modelled on values: what they compute is stated, not how they update a buffer or a table in place.
- Sha256.HashOf: speaks of messages shorter than 2^61 bytes, because FIPS 180-4 defines no digest for longer ones; the same holds of `HashOfChunks` and `Final`.
- JournalScan.WrittenOfRead: does not claim that a discarded tail was an interrupted append, because it need not be (`GarbageDiscarded`), and from 24 bytes on whether it can have been depends on the digest function.
- EngineOnStore.RunSurvivesRestart: joins the operations as functions with the store protocol; the methods of `EngineService` and `DurableStore` are each proved against their side of it and do not call one another.
