# Verification of the event-sourced acceptance core and its task scheduler

This project models an audit runtime that accepts proposals as events. Workers propose events;
`process_candidate_events` canonicalises each one, validates it against the projection of the ledger so
far and appends it; the canonical state is a fold over the ledger. A task queue, a planner and a router
decide what workers look at next, and a report compiler, a forensic run ledger and a deterministic
repairer stand at the edges. The model follows the code; where code and documentation disagree, the
section "Where the code and its documentation part" says how.

## Layout

- Ledger and crash recovery: `Json`, `JsonFacts`, `JsonScan` (a compact JSON printer and reader, printed
  records are one line, no proper prefix of a record is a record), `EventStore` (the byte log, the repair
  scan, reading, duplicates), `AppendSafety`, `LedgerRecovery` and `CrashRecovery` (runs with a crash
  possible inside every write).
- Canonical meaning: `Ordering`, `Text`, `Events`, `Canonicalization`, with `CanonicalizationFacts` and
  `SemanticIdentity` for the theorems.
- Acceptance: `Rules`, `Projector`, `Validators`, `Processing`, with `AcceptanceSafety`, `EvidenceSafety`,
  `ProjectionSafety` and `Resubmission`; `ConcreteRuns` and `UnsupportedClosing` (runs that show what the
  conditions of those theorems exclude).
- From bytes to decisions: `DurableAcceptance` (the acceptance loop over the ledger file itself, with a
  crash possible inside every append) and `EventRecord` (a way to write events as records).
- Scheduling: `TargetPaths`, `TaskQueue`, `Planner`, `Router`, with `QueueSafety`, `QueueReadability`,
  `PlannerSafety`, `RouterSafety` and `RouterFiles`.
- Consumers: `Report`, `ReportSafety`, `ReportOfLedger`; `RunLedger`, `RunLedgerFacts`,
  `RunLedgerOutcomes`; `Repairer`, `RepairSafety`, `RepairAgain`.

Each loop of the source is a method proved equal to a specification function; objects that the source
updates in place (`EventStore.Store`, `Projector.Projection`, `Processing.Workspace`,
`TaskQueue.TaskQueueStore`, `RunLedger.Ledger`) are classes whose methods state their whole new state.
The theorems are lemmas about those functions.

## Assumptions

- Rules, guards, permissions, policies and limits are arbitrary values. A theorem that needs something of
  the rule file says so in a hypothesis (`EvidenceSafety.GuardsCover`, `EvidenceSafety.VerifiedIsFinal`).
- The digests are functions; where identity of digests must mean identity of content they are injective.
  NFKC (Unicode Standard Annex #15) is a function that is idempotent and stable on collapsed text.
  JSON Schema checks, source binding, the clock, id digests and identifier tokenisation are parameters.
- JSON text follows RFC 8259: section 7 (a string holds no raw control character) and section 4 (object
  structure) are proved of the printer instead of being assumed.
- Events are written and read back by a codec that loses nothing and shows the three keys the store looks
  at (`DurableAcceptance.Faithful`); such codecs exist (`EventRecord.FaithfulCodecExists`).
- There is one writer. A whole file is replaced atomically; an append can be cut after any character.

## Where the code and its documentation part

- A cut that loses exactly the final newline leaves a complete but unterminated record. It is read as an
  event, the repair keeps it without adding the newline, whatever the next append writes is joined to it,
  and the repair after that drops both (`LedgerRecovery.LostNewlineLosesTwoEvents`). Nothing else loses an
  event: `CrashRecovery.RecoverableIff` is the exact condition over all runs. Seen from the acceptance loop
  it is the one crash that retrying a batch does not survive (`DurableAcceptance.RetriedBatchIsTakenOnce`,
  `DurableAcceptance.LostNewlineCostsAnEvent`).
- The line number that an append reports is one more than the last record's, which is not the line
  written when the ledger ends in blank lines (`AppendSafety.ReportedLineIff`).
- The rule file lists guard kinds that the validator does not implement; they are `Rules.Unimplemented`
  and never raise an issue. Its implemented guards do not cover `issue.closed`, which is accepted whatever
  it cites (`EvidenceSafety.ShippedRulesLetClosedIssuesCiteAnything`), and after which no report can be
  built (`UnsupportedClosing.IssueClosesOnNothing` is such a run).
- A batch that is processed again after a crash inside it goes on where it stopped unless a submission
  that was rejected before has become acceptable (`Resubmission.PrefixIsQuietIff`). It can have: an event
  that starts an audit is refused when it comes before the one that creates it, and accepted when the
  batch is processed again (`ConcreteRuns.RerunAcceptsMore`). The condition is exact for what the part
  before the crash adds a second time; for the ledger at the end of a batch that goes on after the crash
  it is sufficient and not necessary (`ConcreteRuns.RerunCanCatchUp`).
- Candidate entity ids ignore the snapshot reference (`SemanticIdentity.CandidateIdIgnoresSnapshot`).
- The report compiler's coverage guardrail can never fire (`ReportSafety.ConsistencyCheckNeverRejects`).
- Targets are normalised again on every load, which is not idempotent for paths such as `./ a`
  (`TargetPaths.NormalIdempotentIff`). So with suppression on one file can still be routed twice in a run
  (`RouterFiles.OneFileIsRoutedTwice`; `RouterFiles.RoutedFilesAreDistinctIff` says when), and the path
  `./ ./ /`, which normalises to a text that normalises to nothing, is accepted into the queue and makes
  the file unreadable, so that opening the store empties it (`QueueReadability.OnePathEmptiesTheQueue`;
  `QueueReadability.OpeningKeepsTheQueueIff` says when).
- Every candidate that a guardrail turns away gets a placeholder that needs the audit's snapshot, and
  without one the run raises whatever the guardrail was (`RouterSafety.TurnedAwayRaisesIff`). So the
  outcome for a candidate without any snapshot cannot be returned (`RouterSafety.MissingSnapshotRaises`).
  The second check of the run limit is dead (`RouterSafety.RunLimitIsCheckedOnce`).
- Two repair entries record the repaired value as the original one; the status that the repairer derives
  for `candidate.promoted_to_observation` is one that no candidate rule leads to
  (`RepairAgain.DerivedPromotionIsNeverPermitted`).

## Model

| member | source | states |
|---|---|---|
| `JsonFacts.LoadsPrint` | runtime/event_store.py:457-459 | Reading a serialised event back gives the same value, for every JSON value. |
| `JsonFacts.PrintInjective` | runtime/event_store.py:457-459 | Two events with the same serialised line are the same event. |
| `JsonFacts.PrintIsPrintable` | runtime/event_store.py:457-459 | A serialised event holds only printable ASCII, so it is one line of the ledger. |
| `JsonScan.TornRecordNeverLoads` | runtime/event_store.py:496-511 | No proper prefix of a serialised record is a JSON value, so a cut record is always recognised. |
| `EventStore.ScanForTail` | runtime/event_store.py:473-525 | The line-by-line scan with its running offset returns exactly the size up to which the ledger is sound, or refuses when a line before the last is bad. |
| `EventStore.ReadLines` | runtime/event_store.py:343-359 | Reading yields every record line with its physical line number, blank lines skipped. |
| `EventStore.Store.RepairTrailingPartialWrite` | runtime/event_store.py:473-531 | The repair truncates the ledger to its sound part, or leaves it untouched when it refuses. |
| `EventStore.Store.IterStoredEvents` | runtime/event_store.py:343-359 | Reading repairs the tail first and then returns the stored events of the repaired ledger. |
| `EventStore.Store.AppendSerializedLine` | runtime/event_store.py:461-471 | An append cut at any character leaves exactly that prefix of the record after the old ledger. |
| `EventStore.FindDuplicateOrConflict` | runtime/event_store.py:420-452 | The scan over the stored events finds the first one with the same id, or else the same audit and idempotency key: a duplicate when equal, otherwise a conflict; an event without an id raises, and where the ids differ so does one without the other keys. |
| `EventStore.Store.AppendEvent` | runtime/event_store.py:309-336 | An event that fails its schema changes nothing; otherwise the tail is repaired, and the record is written if and only if the answer is that it was appended. |
| `AppendSafety.AppendedIff` | runtime/event_store.py:420-452 | An event is appended if and only if no stored event shares its id or its audit and idempotency key, and all of them have the keys unless nothing is stored yet. |
| `AppendSafety.DuplicateIsStored` | runtime/event_store.py:320-327 | A duplicate answer names the line of a stored event equal to the one offered. |
| `AppendSafety.AppendAgain` | runtime/event_store.py:309-336 | Appending the same event a second time is answered as a duplicate of the line the first time wrote. |
| `AppendSafety.ReportedLineIff` | runtime/event_store.py:329-336 | The reported line number is the line written if and only if the ledger does not end in blank lines. |
| `LedgerRecovery.CutAppendRepairs` | runtime/event_store.py:461-531 | After a cut at any character recovery yields the old ledger, or the old ledger with the whole record, and it is newline-terminated unless exactly the newline was lost. |
| `LedgerRecovery.KeptRecord` | runtime/event_store.py:513-525 | A record that reached the file, with or without its newline, is read back as the last event and every earlier event is unchanged. |
| `LedgerRecovery.CleanIsStable` | runtime/event_store.py:473-525 | Repairing a clean ledger changes nothing. |
| `LedgerRecovery.JoinedRecordsNeverLoad` | runtime/event_store.py:461-471 | A record followed on its line by any beginning of another one is never a JSON value. |
| `LedgerRecovery.LostNewlineLosesTwoEvents` | runtime/event_store.py:513-525 | After losing only the newline, any next append that writes something, cut or not, is joined to the record, and the repair after it loses both. |
| `CrashRecovery.RunKeeps` | runtime/event_store.py:461-531 | Through any run of appends, recoveries, state writes and snapshots, cut anywhere, from any clean ledger, the ledger can be repaired and holds exactly the surviving events. |
| `CrashRecovery.SurvivorsIff` | runtime/event_store.py:513-525 | All written events survive if and only if no append reached a line that had lost its newline; otherwise there are strictly fewer for ever. |
| `CrashRecovery.RecoverableIff` | runtime/processing.py:284-315 | Over every run recovery succeeds, and it reads back exactly the events whose records reached the file, in order, if and only if no append reached a line that had lost its newline. |
| `CrashRecovery.StateFilesAreMoments` | runtime/processing.py:240-315 | Over every run the state file and every snapshot are the projection of what the ledger held at some moment of the run. |
| `CrashRecovery.StatesProjectPrefixes` | runtime/processing.py:240-315 | Where nothing was joined, each is the projection of a prefix of the ledger's events. |
| `CrashRecovery.RecoveryCatchesUp` | runtime/processing.py:284-315 | A completed recovery after any run leaves the state file equal to the projection of all surviving events. |
| `CrashRecovery.LostNewlineBreaksTheRun` | runtime/event_store.py:513-525 | From any clean ledger, a crash that loses only the newline, a recovery and any append that reaches the file leave a state file that shows an event the ledger has lost. |
| `Canonicalization.NormalizeSourceRefsForStorage` | runtime/canonicalization.py:834-859 | The nested loops compute the sorted identities, each with the excerpt of the first reference at the same place. |
| `CanonicalizationFacts.StorageIdempotence` | runtime/canonicalization.py:834-859 | Normalising stored references twice changes nothing if and only if no stored excerpt is blank. |
| `CanonicalizationFacts.StorageKeepsIdentities` | runtime/canonicalization.py:291-326 | Storing source references keeps their semantic identities. |
| `CanonicalizationFacts.PermutedRefs` | runtime/canonicalization.py:291-326 | Permuting source references changes no identity. |
| `CanonicalizationFacts.IdListIdempotent` | runtime/canonicalization.py:276-284 | Normalising an id list is idempotent. |
| `CanonicalizationFacts.RepeatedIds` | runtime/canonicalization.py:276-284 | Permuting, repeating or re-spacing ids gives the same normalised list. |
| `CanonicalizationFacts.RelatedRefsIgnoreOrder` | runtime/canonicalization.py:329-346 | Permuting entity references gives the same canonical list. |
| `CanonicalizationFacts.RelatedRefsIdempotent` | runtime/canonicalization.py:329-346 | Canonical entity references are a fixed point. |
| `CanonicalizationFacts.EvidenceRefsIgnoreOrder` | runtime/canonicalization.py:369-416 | Permuting candidate evidence gives the same canonical list. |
| `CanonicalizationFacts.EvidenceRefsIdempotent` | runtime/canonicalization.py:369-416 | Canonical candidate evidence is a fixed point. |
| `CanonicalizationFacts.FilePathsIgnoreOrder` | runtime/canonicalization.py:427-441 | Involved file paths are a set: order and repetition do not matter. |
| `CanonicalizationFacts.FilePathsIdempotent` | runtime/canonicalization.py:427-441 | Canonical file paths are a fixed point. |
| `CanonicalizationFacts.BasisIdempotent` | runtime/canonicalization.py:732-831 | Normalising a hypothesis basis is idempotent. |
| `SemanticIdentity.FingerprintSurvives` | runtime/canonicalization.py:104-224 | The fingerprint is the same before and after canonicalising if and only if it is computed field by field or no excerpt to be stored is blank. |
| `SemanticIdentity.CanonicalizeIdempotent` | runtime/canonicalization.py:104-128 | Canonicalising twice equals canonicalising once if and only if no excerpt to be stored is blank. |
| `SemanticIdentity.SameMeaningSameIds` | runtime/canonicalization.py:131-224 | Events that differ only in display whitespace, list order or repetition, and proposals whatever provisional ids they came with, get the same fingerprint, entity id and event id. |
| `SemanticIdentity.EntityIdIffFingerprint` | runtime/canonicalization.py:625-703 | For observation, hypothesis, question and issue proposals two canonical events share the entity id if and only if they share the fingerprint. |
| `SemanticIdentity.CandidateIdentity` | runtime/canonicalization.py:593-622 | Candidate proposals share an entity id exactly when audit and candidate meaning agree, and a fingerprint exactly when they share entity id and snapshot. |
| `SemanticIdentity.CandidateKindsNeverMerge` | runtime/canonicalization.py:593-622 | Candidates of different types share neither fingerprint nor entity id. |
| `SemanticIdentity.CandidateIdIgnoresSnapshot` | runtime/canonicalization.py:625-703 | A candidate seen in another snapshot keeps its entity id and gets another fingerprint. |
| `Projector.BuildState` | runtime/projector.py:67-89 | Applying the audit's accepted events one by one gives the fold, and raises exactly when the fold does. |
| `Projector.Projection.Apply` | runtime/projector.py:114-144 | One event updates its own entity or the audit root, or is refused and changes nothing. |
| `Validators.ValidateCrossEntityGuards` | runtime/validators/transition.py:150-376 | The guard loop collects the issues of every guard in order. |
| `Processing.Workspace.ProcessCandidateEvents` | runtime/processing.py:134-281 | The outcomes, the ledger and the state file after a call, for aligned and misaligned batches, exceptions and projection failures. |
| `Processing.OneAuditIsRebuilt` | runtime/processing.py:389-401 | Every accepted event of an aligned batch belongs to the audit whose state is rebuilt, so the accepted events never span audits. |
| `Processing.Workspace.RecoverRuntimeState` | runtime/processing.py:284-315 | Recovery sets the state file to the projection for the requested audit, or without one for the only audit there is, or keeps the old file when there is none. |
| `Projector.ProjectionWithoutAudit` | runtime/projector.py:183-197 | Without an audit id the projection is that of any accepted event's audit, and fails if and only if another accepted event belongs to another audit or that projection fails. |
| `AcceptanceSafety.ReachableIsLawful` | runtime/processing.py:164-238 | Every event of every reachable ledger passed the schema, duplicate, permission, transition, guard and contradiction checks against the ledger before it. |
| `AcceptanceSafety.FoldShowsHistory` | runtime/projector.py:114-144 | The status of an entity in the projection is the last status its accepted events gave it. |
| `AcceptanceSafety.HistoriesFollowRules` | runtime/validators/transition.py:97-148 | For any rule set, every status history in every reachable ledger is a path of allowed transitions from the absent status. |
| `AcceptanceSafety.AcceptedEventsFollowTheRules` | runtime/validators/transition.py:97-148 | Each accepted event was permitted from the status its entity had in the projection of all events before it. |
| `EvidenceSafety.CitedEvidenceStaysVerified` | runtime/validators/transition.py:183-261 | With guards that cover issues and verified as a final status, every reported issue in every reachable state cites only existing, verified observations of an allowed class. |
| `EvidenceSafety.EveryIssueStaysSupported` | runtime/validators/transition.py:183-261 | With guards on every issue event the same holds of all issues, rejected ones included. |
| `EvidenceSafety.WildcardGuardsCoverAll` | rules/transition_rules.yaml:567-660 | Guards scoped to issues without an event type are such guards. |
| `EvidenceSafety.GuardedIssueIsSupported` | runtime/validators/transition.py:183-261 | An issue that the guards pass cites only supported observations. |
| `EvidenceSafety.VerdictIgnoresCitations` | runtime/validators/transition.py:442-447 | When no guard reads the citations of an event type, its verdict is the same for every list of observation ids. |
| `EvidenceSafety.ShippedRulesLetClosedIssuesCiteAnything` | rules/transition_rules.yaml:567-660 | Under the shipped guards an `issue.closed` submission with no other fault is accepted whatever it cites, its ledger is reachable, and the invariant holds afterwards if and only if the closed issue is well supported. |
| `EvidenceSafety.EvidenceKeptIff` | runtime/projector.py:114-144 | Applying an issue event keeps the invariant if and only if the event's own citations are supported. |
| `UnsupportedClosing.IssueClosesOnNothing` | rules/transition_rules.yaml:350-370 | Such a run under the shipped guards and transitions: an observation is proposed and verified, an issue citing it is proposed, accepted and then closed citing any other text; the invariant holds until the last event, and then no report can be built. |
| `UnsupportedClosing.PlainIdsExist` | runtime/canonicalization.py:276-284 | The environments of that run exist: texts that are normal already and digests without whitespace. |
| `EvidenceSafety.ShippedGuardsLeaveClosingOpen` | runtime/validators/transition.py:183-261 | The shipped guards do not meet the covering hypothesis. |
| `ProjectionSafety.ProjectionExistsIff` | runtime/projector.py:67-89 | A reachable ledger projects for an audit if and only if the audit's first accepted event is an audit event; otherwise that event stays its only one. |
| `ProjectionSafety.ProjectionDependsOnItsAudit` | runtime/projector.py:67-89 | An audit's projection depends on that audit's events alone. |
| `ProjectionSafety.ReachableStateIsKeyed` | runtime/validators/schema.py:41-80 | Every entity of a projection is stored under its own id and kind. |
| `ProjectionSafety.FoldKeeps` | runtime/projector.py:114-144 | No later event loses an entity or changes the audit root's id. |
| `ProjectionSafety.ContradictionReferencesPersist` | runtime/validators/contradiction.py:16-58 | Every reference checked when a contradiction was registered resolves in all later states. |
| `Resubmission.NoIssueNoClash` | runtime/validators/duplicate.py:18-92 | The duplicate validator is silent if and only if no event of the ledger matches by id, key or meaning. |
| `Resubmission.PassingNeverConflicts` | runtime/event_store.py:420-452 | An event that passes the duplicate validator never conflicts in the store. |
| `Resubmission.StoreNeverRefuses` | runtime/processing.py:195-238 | So the store's two refusals never happen in the acceptance loop. |
| `Resubmission.ReachableLedgersAreDistinct` | runtime/validators/duplicate.py:18-92 | Event ids are unique, and so are idempotency keys and meanings within an audit, in every reachable ledger. |
| `Resubmission.AcceptedOnce` | runtime/validators/duplicate.py:18-92 | Resubmitting an accepted event is rejected with exactly the duplicate code, on every later ledger. |
| `Resubmission.SameMeaningIsDuplicate` | runtime/validators/duplicate.py:18-92 | So is any rephrasing with the same meaning. |
| `Resubmission.BatchAgain` | runtime/processing.py:164-238 | Processing an accepted batch again rejects every event and leaves the ledger unchanged. |
| `Resubmission.PrefixIsQuietIff` | runtime/processing.py:164-238 | The first part of a batch, processed again on the ledger it left, adds nothing if and only if no submission of it that was rejected has become acceptable. |
| `Resubmission.ExactlyOnce` | runtime/processing.py:164-238 | Under that condition a crash inside a batch followed by processing the whole batch ends in the ledger of one uninterrupted call. |
| `Resubmission.AcceptedPrefixStays` | runtime/processing.py:164-238 | The condition holds when everything before the crash was accepted. |
| `ConcreteRuns.RerunAcceptsMore` | rules/transition_rules.yaml:101-116 | The condition can fail: under the shipped audit transitions a batch that starts an audit before creating it ends, processed again after a crash at its end, with an event that one call does not accept. |
| `ConcreteRuns.RerunCanCatchUp` | rules/transition_rules.yaml:101-116 | When such a batch goes on after the crash both ways can still end in the same ledger. |
| `DurableAcceptance.AppendedIffFresh` | runtime/event_store.py:420-452 | Over a file of encoded events the store appends exactly when the loop's own check of the event list is silent. |
| `DurableAcceptance.StepFollows` | runtime/processing.py:164-238 | One submission judged against the file and appended up to any cut leaves the events of the loop's next ledger, or of the old one when the cut tore the record. |
| `DurableAcceptance.RunFollows` | runtime/processing.py:164-238 | Processing a list of submissions over the file refines processing it over the event list. |
| `DurableAcceptance.RetriedBatchIsTakenOnce` | runtime/processing.py:134-281 | Exactly once over the file: after any number of crashes inside the appends of a batch, none of which takes a newline alone, one completed call leaves the file with the events of one uninterrupted call, provided nothing turned away becomes acceptable. |
| `DurableAcceptance.LostNewlineCostsAnEvent` | runtime/event_store.py:513-525 | After a crash that takes the newline alone everything is kept until the first submission that is accepted, which costs the unterminated event and itself. |
| `EventRecord.FaithfulCodecExists` | runtime/event_store.py:453-459 | Every event can be written as a record that reads back as the same event and shows its id, audit and idempotency key. |
| `Resubmission.ResumedTaskCompletes` | cli.py:494-503 | A resumed unit of work whose whole batch was accepted before completes, and only because it is resumed. |
| `TargetPaths.NormalizeTargetValue` | runtime/tasks.py:113-125 | The loops terminate and together compute one normal form. |
| `TargetPaths.CollapseSlashes` | runtime/tasks.py:117-118 | Repeated replacement of double slashes squeezes every run of slashes to one. |
| `TargetPaths.DropInnerDots` | runtime/tasks.py:119-120 | Repeated replacement of `/./` removes every inner dot segment. |
| `TargetPaths.NormalPathShape` | runtime/tasks.py:113-125 | A normalised path has no backslash, double slash, inner dot segment, leading `./` or trailing slash other than `/` itself. |
| `TargetPaths.NormalIdempotentIff` | runtime/tasks.py:113-125 | Normalising twice equals normalising once if and only if no cut exposes whitespace at an end. |
| `TargetPaths.SpaceFreeIsStable` | runtime/tasks.py:113-125 | Paths without whitespace normalise once and for all. |
| `TargetPaths.DotSpaceIsNotStable` | runtime/tasks.py:113-125 | The path `./ a` does not. |
| `TargetPaths.NormalVanishesIff` | runtime/tasks.py:113-125 | A normalised path becomes nothing when it is normalised again if and only if only whitespace and a slash follow its `./`. |
| `TaskQueue.MadeTargetIsStableIff` | runtime/tasks.py:178-190 | A constructed target survives being constructed again under exactly that condition. |
| `TaskQueue.WriteThenLoadIff` | runtime/tasks.py:490-544 | Writing the queue and loading it returns the same queue if and only if every target is stable and every entry is keyed by its id. |
| `TaskQueue.ListingFacts` | runtime/tasks.py:367-382 | A listing holds exactly the matching entries, least first. |
| `TaskQueue.TaskQueueStore.EnqueueMany` | runtime/tasks.py:413-439 | New ids are stored, known ids answered as duplicates, an id with other content fails, and the file is written only when something was added. |
| `QueueReadability.ReadableAfterEnqueueIff` | runtime/tasks.py:490-536 | After a new entry was stored the queue can be read again if and only if neither its path nor any queued one normalises away. |
| `QueueReadability.RecoverQueue` | runtime/tasks.py:546-585 | Recovery leaves a readable queue alone and replaces an unreadable one by an empty queue. |
| `QueueReadability.OpeningKeepsTheQueueIff` | runtime/tasks.py:348-356 | So opening the store after an enqueue keeps every entry, or loses all of them, under exactly that condition. |
| `QueueReadability.OnePathEmptiesTheQueue` | runtime/tasks.py:413-439 | The path `./ ./ /` is accepted into every readable queue and costs all of it. |
| `TaskQueue.TaskQueueStore.TransitionTask` | runtime/tasks.py:441-488 | A permitted change rewrites exactly that entry; a refused one leaves the file. |
| `TaskQueue.TaskQueueStore.ClaimNextTask` | runtime/tasks.py:387-408 | A claim moves the first pending entry of the listing to running. |
| `TaskQueue.TaskQueueStore.SelectTaskForExecution` | cli.py:1112-1124 | What is running is resumed, otherwise the next pending entry is claimed. |
| `QueueSafety.TasksKeepIdentity` | runtime/tasks.py:441-488 | Over any run no entry is lost, its id, audit, type and creation time never change and neither does a stable target, and a done entry keeps status, attempts and error for ever. |
| `QueueSafety.AttemptsAreEntries` | runtime/tasks.py:465-477 | The attempt count is the number of entries into running and at most one more than the retries; failed entries carry a non-blank trimmed error, running and done ones none. |
| `QueueSafety.OneTaskRuns` | cli.py:1112-1124 | When work is started only by selecting, an audit never has two running entries. |
| `QueueSafety.ClaimTakesTheLeast` | runtime/tasks.py:159-169 | A claim takes the pending entry least by priority, creation time, target and id, fails only on an unreadable queue, and takes none exactly when none is pending. |
| `QueueSafety.OfferAllAnswers` | runtime/tasks.py:413-439 | Every offered entry gets one answer, in order, and the stored ids are the old ones and the offered ones. |
| `Planner.CountVerifyClaims` | runtime/tasks.py:751-762 | The first counting loop computes the verification charges of the active entries, in all and by observation. |
| `Planner.CountComposeIssues` | runtime/tasks.py:764-775 | The second computes the composition charges, in all and by source. |
| `Planner.IndexByKey` | runtime/tasks.py:745-749 | The index holds the first entry for each follow-up key. |
| `Planner.ConsiderTask` | runtime/tasks.py:790-848 | One turn of the planning loop through the queue store. |
| `Planner.EnqueueFollowUpCandidates` | runtime/tasks.py:738-850 | The loop's results and the queue it leaves. |
| `PlannerSafety.FollowUpsArePlannable` | runtime/tasks.py:637-691 | The candidates made from a state's observations are pending, of the audit, and have stable targets. |
| `PlannerSafety.StartCountsAreTrue` | runtime/tasks.py:751-776 | The counters at the start are the numbers of active entries in the queue, for every budget and every queue that was read. |
| `PlannerSafety.PlanOneKeeps` | runtime/tasks.py:790-848 | Every turn keeps the counters true, the budgets, the distinct keys and all earlier entries, and adds one result; it fails only on an id collision or an unreadable file, and then changes nothing. |
| `PlannerSafety.PlanningRoundIsSafe` | runtime/tasks.py:738-850 | After a round over any readable queue no entry has lost anything but the old form of an unstable target; reading old entries as they were read at the start, the counters are the true counts, every count is at most the larger of its start and its limit, at most the per-round number of verifications is new and new entries have keys unlike all others; and every candidate has one result. |
| `PlannerSafety.SettledQueuesAreKept` | runtime/tasks.py:738-850 | When the targets are stable the old entries are kept to the letter, so the counts are those of the file itself. |
| `PlannerSafety.EnqueuedExactlyWhenThereIsRoom` | runtime/tasks.py:790-829 | An entry is added if and only if its id and key are new and every budget it would be charged to has room. |
| `Router.ScanInvolvedFiles` | runtime/tasks.py:1280-1306 | The loop over involved files makes one scan per file not seen before. |
| `Router.AdmitTasks` | runtime/tasks.py:1159-1181 | The loop with its break and continue admits what the two limits leave. |
| `Router.RouteCandidate` | runtime/tasks.py:1028-1183 | The guardrails of one candidate, in order. |
| `Router.RouteCandidatesToVerification` | runtime/tasks.py:966-1191 | The results of a run and the queue it leaves, untouched when the run raises. |
| `RouterSafety.RoutingStaysWithinLimits` | runtime/tasks.py:1155-1183 | Every routed entry was made for its owner, no candidate owns more than its limit, and pending plus routed verifications stay below the larger of the start and the limit of the run. |
| `RouterSafety.PendingVerifyStaysBounded` | runtime/tasks.py:1011-1014 | The pending verifications really in the queue after a run obey the same bound, for every queue file. |
| `RouterSafety.StartVerifyIsTrue` | runtime/tasks.py:1011-1014 | The starting count is the number of pending verifications of the audit. |
| `RouterFiles.RoutedFilesTied` | runtime/tasks.py:1234-1306 | With suppression on, every run's routed path entries stand for distinct files, and target distinct values if and only if no two of those files normalise again to the same text. |
| `RouterFiles.RoutedFilesAreDistinctIff` | runtime/tasks.py:1234-1306 | In a run that no limit cuts, no two routed path entries target the same file if and only if no two files of the candidates that pass the guardrails become the same target. |
| `RouterFiles.RoutedFilesAreDistinct` | runtime/tasks.py:1234-1306 | With any limits, that no two files of the audit's candidates become the same target is enough. |
| `RouterFiles.StableFilesAreDistinct` | runtime/tasks.py:1234-1306 | In particular that all of them are stable is enough. |
| `RouterFiles.OneFileIsRoutedTwice` | runtime/tasks.py:1280-1306 | A cross-file candidate over `./ a` and `a` routes two scans of one file, under every policy with room for two. |
| `RouterFiles.StableFileIff` | runtime/tasks.py:113-125 | A file name is stable exactly when no cut exposes whitespace. |
| `RouterSafety.RoutedUpToTheLimit` | runtime/tasks.py:1155-1183 | A candidate that passes the guardrails has exactly its first entries routed, up to the limit. |
| `RouterSafety.TurnedAwayRaisesIff` | runtime/tasks.py:1340-1381 | A candidate that any guardrail turns away ends the run with an error if and only if the audit's snapshot or the candidate's id is blank. |
| `RouterSafety.MissingSnapshotRaises` | runtime/tasks.py:1340-1381 | So a candidate without a snapshot always does. |
| `RouterSafety.RunLimitIsCheckedOnce` | runtime/tasks.py:1168-1176 | The check of the run limit inside the admission loop never fires. |
| `Report.CollectVerified` | runtime/report_compiler.py:233-244 | Exactly the verified observations of the audit, or the first one without an evidence class. |
| `Report.CollectFindings` | runtime/report_compiler.py:307-387 | Findings of all reported issues in id order, or the first error. |
| `Report.Covered` | runtime/report_compiler.py:396-411 | The observations and finding ids the issue findings account for. |
| `Report.MergeWithObservations` | runtime/report_compiler.py:389-469 | Uncited verified observations become findings of their own or suppression records. |
| `Report.ObservationsArePartitioned` | runtime/report_compiler.py:413-469 | Each uncited verified observation is placed exactly once, every other one not at all. |
| `Report.PlacementsAreJustified` | runtime/report_compiler.py:418-440 | Suppression reasons are true and synthesised findings rest on allowed classes and fresh ids. |
| `ReportSafety.BuildReport` | runtime/report_compiler.py:78-161 | The report or the error of one compilation. |
| `ReportSafety.FindingsCiteVerifiedEvidence` | runtime/report_compiler.py:332-347 | Every finding of a report rests on at least one observation and only on verified ones of the audit with an allowed class. |
| `ReportSafety.EveryObservationIsPlacedOnce` | runtime/report_compiler.py:389-469 | Every verified observation ends in exactly one of three places: an issue finding, its own finding, or one suppression record; one that is not verified is in neither of the last two; and the findings are those of the issues followed by the observations' own. |
| `ReportSafety.EveryIssueIsReported` | runtime/report_compiler.py:307-387 | Every issue that is not rejected has a finding that cites exactly its observations. |
| `ReportSafety.ConsistencyCheckNeverRejects` | runtime/report_compiler.py:491-556 | The final consistency check raises for no state at all. |
| `ReportOfLedger.ReachableLedgersReport` | runtime/report_compiler.py:332-347 | Under covering guards no reachable ledger makes the compiler raise either evidence error. |
| `ReportOfLedger.ReportedIssuesAreSupported` | runtime/report_compiler.py:307-387 | A report is built only from a state in which every issue it reports is well supported. |
| `ReportOfLedger.UnsupportedClosingStopsReports` | runtime/report_compiler.py:332-347 | Under the shipped guards a closing event that cites anything unsupported is accepted and leaves a state from which no report can be built. |
| `RunLedger.Ledger.StartRun` | runtime/run_ledger.py:139-193 | Starting a run again returns its entry, other metadata fails, otherwise one numbered entry is appended. |
| `RunLedger.Ledger.RecordWorkerExecution` | runtime/run_ledger.py:195-252 | The first failing check on counts, status, digests, failure stage or an outcome is the error and leaves the ledger; otherwise one entry with the next sequence number is appended. |
| `RunLedger.OutcomesAreSplit` | runtime/run_ledger.py:228-248 | Every outcome of a recorded execution is in exactly one of the entry's two lists. |
| `RunLedger.Ledger.ResolveEntityTrace` | runtime/run_ledger.py:289-326 | The trace is the last of the best-ranked matches in sorted order. |
| `RunLedger.Ledger.ListCandidatesByOutcome` | runtime/run_ledger.py:657-753 | The two passes over the audit's accepted events. |
| `RunLedger.NextRunIdIsFresh` | runtime/run_ledger.py:896-905 | A generated run id is not in use and reads back as its number. |
| `RunLedgerFacts.LedgersAreNumbered` | runtime/run_ledger.py:908-914 | In every ledger entries are numbered from one without gaps, and run ids are unique. |
| `RunLedgerFacts.BestIsBestAndLatest` | runtime/run_ledger.py:289-326 | The returned trace has the best preference rank there is and the highest sequence number among those. |
| `RunLedgerFacts.EntityTraceIsLastOfBest` | runtime/run_ledger.py:289-326 | In every ledger it is the last match of that rank. |
| `RunLedgerOutcomes.OutcomesAgreeIff` | runtime/run_ledger.py:391-496 | For an id of one audit, listing and trace agree if and only if no earlier event outranks the last lifecycle event. |
| `RunLedgerOutcomes.LifecycleOutcomesAgree` | runtime/run_ledger.py:657-753 | Along the candidate lifecycle both give the status the rules leave the candidate in. |
| `RunLedgerOutcomes.OtherAuditsChangeTheTrace` | runtime/run_ledger.py:391-496 | A promotion of the same id in another audit changes the trace and not the listing. |
| `Repairer.Repair` | runtime/repair/repairer.py:98-174 | The repaired output, the log and the counters, or the first error, an event type that cannot be looked up among them. |
| `Repairer.NormalizeNulls` | runtime/repair/repairer.py:370-437 | The loops over nullable and decision fields. |
| `Repairer.CountEntries` | runtime/repair/repairer.py:131-156 | The counters after some entries are the counts of the log so far. |
| `RepairSafety.LogExplainsRepair` | runtime/repair/repairer.py:98-174 | Replaying the log over the input gives exactly the output, and the totals are those of the log. |
| `RepairAgain.OtherFieldsStay` | runtime/repair/repairer.py:264-310 | A repair touches no field outside its list, in particular never the event type. |
| `RepairAgain.FinalField` | runtime/repair/repairer.py:370-510 | The value of every nullable field after all passes. |
| `RepairAgain.FinalAcceptance` | runtime/repair/repairer.py:312-437 | The acceptance record after all passes. |
| `RepairAgain.FinalPayload` | runtime/repair/repairer.py:512-582 | An event type with a derivable status always ends with a status in its payload. |
| `RepairAgain.SecondRepairIsQuietIff` | runtime/repair/repairer.py:98-174 | Repairing the output again succeeds and logs nothing if and only if the context injects no text "null" into a missing field and no decider stands where the acceptance status was absent. |
| `RepairAgain.DerivedPromotionIsNeverPermitted` | runtime/repair/status_derivation.py:18-49 | The status derived for a promotion is permitted from no candidate status. |

## Left out

- Cross-process locks: one writer is assumed.
- JSON Schema validation, YAML loading, source binding against the working tree, git and the clock: parameters.
- Redaction of secrets before writing: taken as the identity.
- Floating-point numbers and lone surrogates in JSON text.
- Ledger records with repeated or unsorted keys: an appended record is sorted and has each key once, so two of them are equal exactly when their lines are.
- Appending an event without an id to an empty ledger: it is written, as in the code, but not the error that building the answer then raises.
- The candidate counts of a recorded execution are not compared with its outcomes, here as in the code.
- Payloads whose shape does not fit their entity type, and source references without a snapshot.
- NFKC tables and the extraction of identifier tokens: functions with the stated laws.
- Timestamps, id prefixes and the 16-digit truncation of task ids: an id maker is any function, and a collision raises as in the code.
- The initial scan tasks, and queue files that are not JSON objects of the queue's shape.
- Severity, confidence, impact and the evidence class summaries of findings, and the candidate appendix: tables over fields already covered.
- Candidate lineage and the routing summary: they read fields that are never set.
- Backends, prompts, policies' loading, selectors, scanners, coverage and diagnostics: plumbing or tables.
