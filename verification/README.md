# File governance: a verified model

The program keeps a large file store in order. It scans a tree with resumable checkpoints, hashes
files in two stages to find duplicates, records human decisions about them in batches, and carries
out approved plans (move, copy, rename, quarantine, delete-to-quarantine) under a crash journal.
Quarantined files can be restored or, by a path that is disabled in releases, purged. Plans are drafted
from what the directories of the copies say, by a built-in table of rules and by rules that have been
learned. This project models those cores in Dafny and proves what they promise, for every input, every
failure and every point at which the process can die.

Run `dafny verify dfyconfig.toml` to check everything.

## How the model is laid out

**Plan execution, rollback and recovery.** `ExecutionMachine` is a machine over the file map, the
journal, the durable plan state and the memory of one process; each step makes one write, and the
environment decides whether it succeeds, fails, or is replaced by a crash. Its functions follow
`internal/executor/executor.go`, `recovery.go`, `ops.go` and `internal/store/plan_execution.go`
branch by branch. `ExecutionRestore` explains the file map by how far each action got;
`ExecutionInvariant` is the invariant of all runs, and `ExecutionForward` says which plans can be
carried out and builds the runs that do so; `ExecutionTheorems`, `ExecutionLedger`, `ExecutionTwinCopy`
and `ExecutionRepeatedSource` hold the results. `Executor` is the imperative program itself, a class
with the loops of the source; its ghost `config` follows the machine one step per write, so every result
about runs holds wherever its process dies.

**Scanning.** `Scanner` is the directory walk, as a function from trees to events and as a class
with the source's recursion and loop; `PathOrder` is byte order. `ScanSessions` is what any number
of sessions over one unchanged tree do to the file rows and checkpoints. `ProgressiveHashing` is
the two-stage fingerprint: the resume loop as a sequence of passes over a source, and a class that runs
the loop and the full-hash stage after it.

**Decisions.** `DecisionBatches` has the batch writer, the single-decision writer, replay, and the
strict history reader. `DecisionTimestamp`, with `Calendar` and `Digits`, is the sort key.

**Quarantine lifecycle.** `Lifecycle` interleaves source batches, recovery, restore and purge under
the process lock and the durable gate. `RestoreExecutor` is one restore run with every crash state
it can leave. `QuarantineRegistry` is the registration of quarantined files when a plan is verified.

**Classification and planning.** `DirectoryRules` is the built-in table, the matching and the in-place
selection sort; `RuleDefinition` prints and parses the text of a learned rule; `LearnedRules` is the
shared rule set, a class. `RetentionPlan` decides which copy of a group a plan keeps, and follows the
plan into the execution machine.

**Read models.** `PhysicalCopies` counts physical copies over key strings, in memory and in SQL.
`GroupPages` is the keyset pagination of the duplicate groups, down to the rows of one query.
`Collections` holds `Option` and three facts about small sets.

## Assumptions

- One process at a time writes to the files a plan names. A failed remove leaves the file in place.
- SHA-256 is injective on the contents in play (`Sha256(of)` is a constructor).
- A transaction is one atomic step; SQL is modelled by what it reads and writes.
- No action of a plan relocates a file that another one acts on (`SourcesApart`); any number of copies of
  one file are fine. Where a copy landed and another content is relocated later, content can be lost, and
  every such plan relocates from one path twice (`ExecutionRepeatedSource.RepeatedSourceLosesContent`).
- Within one scan, reading a file again gives what it gave before; the files cached up to the boundary that
  are still there have honest records.
- Whether a journal write after a cancellation still succeeds is left open: the model allows both.
- A path is a sequence of bytes, written as chars; roots are written without a trailing separator.
  Rule texts and directory names are sequences of Unicode characters.
- What a path says about a file (its directory's context, business anchor and dependency flag) is part
  of the member in `RetentionPlan`; the age in weeks is an integer quotient, not a rounded float.
- In `GroupPages` the rows of the page query and the total are what the SQL text says they are.

## Where a promise fails, and exactly when it holds

- Recovery may report a rollback that has not restored every file: recovery identifies a copy only
  by its content. `ExecutionTwinCopy.RolledBackMeansRestored` proves for every plan that no failure
  pattern does this if and only if the plan has no twin copy or cannot be carried out. A twin copy is one
  that is not last and lands on the path an earlier action vacated of the very same content; whether a
  plan can be carried out is a test on the plan and the files (`CanRun`), and it means that some run
  verifies it (`ExecutionTwinCopy.CanRunMeansCanVerify`). `ExecutionTwinCopy.ATwinLosesAFile` is such a
  plan of three actions. The content itself is never lost.
- A scan never makes an inactive row active again, because the upsert leaves the status alone and
  `MarkFileActive`, whose comment in the store promises reactivation, is called by no scan. So a
  clean scan leaves active rows equal to the tree if and only if no present file had an inactive
  row (`ScanSessions.CleanScanMatchesTheTree`, with a failing input in
  `ScanSessions.CleanScanKeepsAMissingRow`), and a finishing scan marks a present file missing if
  and only if it resumed at or above it while its row was unavailable
  (`ScanSessions.MissingThoughPresent`). A pause is what makes such rows
  (`ScanSessions.PauseLosesAPresentFile`, `ScanSessions.PresentFilesStayActive`).
- A scan restricted to selected paths visits exactly those that are visible if and only if no visible
  file stands where a directory on the way to a selected path is expected
  (`Scanner.SelectionIsExact`, with a failing input in `Scanner.AFileInTheWayIsVisited`).
- The resume loop need not end: its guard compares how many files a pass saw with how many it asked for,
  not which. It ends if and only if it never comes to a state in which a pass sees as many files as it
  asked for and all of them have been visited before (`ProgressiveHashing.EndsUnlessStuck`). With no
  file in the way it never does (`ProgressiveHashing.NothingInTheWayEnds`); with one it may, after one
  pass (`ProgressiveHashing.AFileInTheWayRepeatsForever`).
- A plan may keep two copies: `RetentionPlan.KeepsExactlyOne` gives the condition, and
  `RetentionPlan.TwoSpellingsAreBothKept` the groups that fail it.
- A verified plan has a managed item for every quarantine or delete if and only if no earlier item
  holds one of the quarantine paths, because a clash is ignored
  (`QuarantineRegistry.EveryQuarantineIsManaged`, and over runs
  `QuarantineRegistry.VerifiedQuarantinesAreManaged`).
- The journal's design notes say that a plan interrupted before its first write returns to
  APPROVED; the code sends it to DRAFT when it has no journal and locks it otherwise. The model
  follows the code.

## Model

| member | source | states |
|---|---|---|
| ExecutionTheorems.NoContentLost | internal/executor/ops.go:47-145 | in every reachable state, mid-move included, every content present at the start is stored at some path |
| ExecutionTheorems.VerifiedTellsTruth | internal/store/plan_execution.go:66-137 | durable VERIFIED means: journal and filesystem actions correspond one to one, all done, none rolled back, and the files are the original ones with exactly those actions carried out |
| ExecutionTheorems.RollbackRestores | internal/executor/executor.go:568-594 | a plan rolled back by the process that ran it has restored every file and settled every row |
| ExecutionTheorems.UnjournaledMeansUntouched | internal/executor/recovery.go:79-85 | a plan in DRAFT or APPROVED, reset ones included, has no journal row and none of its files was written |
| ExecutionTheorems.RecoveryTellsTruth | internal/executor/recovery.go:61-108 | without a twin copy: rolled back means all files restored and all rows settled, reset to draft means nothing written, and every other recovery leaves the plan locked |
| ExecutionTwinCopy.RolledBackMeansRestored | internal/executor/recovery.go:131-137 | every durable ROLLED_BACK of a plan, whatever fails, has restored every file if and only if the plan has no twin copy or cannot be carried out |
| ExecutionTwinCopy.TwinLosesAFile | internal/executor/executor.go:507-509 | for every plan that can be carried out and has a twin copy, the run that reports a rollback and has removed a file of the original map |
| ExecutionTwinCopy.CanRunMeansCanVerify | internal/executor/executor.go:169-295 | a plan passes the static test (scope, fresh files, every target free when it is reached) if and only if some run verifies it |
| ExecutionTwinCopy.ATwinLosesAFile | internal/executor/recovery.go:131-137 | a plan of a move, a copy back of equal content and a third move that is rolled back with a file missing |
| ExecutionForward.ReachesAction | internal/executor/executor.go:236-285 | the run in which the first actions succeed: their rows done with their destinations, the undo list and the files those of carrying them out in order |
| ExecutionForward.FeasibleVerifies | internal/executor/executor.go:169-295 | a plan each of whose actions finds its file and a free destination in turn is verified by some run |
| ExecutionLedger.JournaledNeverRunsAgain | internal/store/plan_execution.go:17-31 | once a process stops over journal rows, the plan returns to neither DRAFT nor APPROVED and only recovery works on it |
| ExecutionLedger.OnlyNamedPathsChange | internal/executor/executor.go:425-545 | no path changes other than sources, targets and the quarantine paths collision resolution picked |
| ExecutionRepeatedSource.RepeatedSourceLosesContent | internal/executor/executor.go:568-594 | in every plan that gets as far as relocating another content to where a copy landed, some run loses that content, and the plan relocates from one path twice: the undo of a copy is unconditional and rollback goes on past a failed undo |
| ExecutionRepeatedSource.LandingTwiceRepeatsASource | internal/executor/ops.go:63-69 | since a destination is created exclusively, landing where an earlier action landed takes two relocations from that path, one before and one after the earlier landing |
| ExecutionRepeatedSource.SuchAPlanLosesContent | internal/executor/executor.go:568-594 | such a plan of four actions, with the files it loses content of |
| ExecutionInvariant.StepInv | internal/executor/executor.go:208-285 | every single write, failure or crash keeps the invariant tying files, journal, plan state and process memory |
| ExecutionInvariant.RunInv | internal/executor/executor.go:169-295 | every run keeps it |
| ExecutionInvariant.CopyTargetIsCopy | internal/executor/recovery.go:131-137 | without a twin copy, what recovery takes for the copy is the copy or the remains of a jammed undo |
| ExecutionRestore.ExplainsAfter | internal/executor/ops.go:107-145 | a change at one action's two paths keeps the files explained by the original map and the progress of the actions |
| ExecutionRestore.FinishBackward | internal/executor/executor.go:464-466 | removing the destination once the source is whole again undoes exactly that action |
| Executor.PlanExecutor.Execute | internal/executor/executor.go:169-295 | the whole pipeline, for plans without a relocated file shared by two actions: success leaves the plan carried out, in-process rollback restores the files, no content is lost; for all plans an unapproved one changes nothing |
| Executor.PlanExecutor.PerformActions | internal/executor/executor.go:236-295 | the action loop ends in a reported outcome of the machine, whatever fails |
| Executor.PlanExecutor.RollbackAll | internal/executor/executor.go:568-594 | newest undo first, on past failures, terminal state only when all are confirmed |
| Executor.PlanExecutor.ExecuteAction | internal/executor/executor.go:425-545 | each kind of action has transferred the verified file to a free target and nothing else, or left at most what it created there |
| Executor.PlanExecutor.UndoAction | internal/executor/executor.go:452-545 | the undo of one action: the copy removed, or the file moved back to its free source |
| Executor.PlanExecutor.MoveFile | internal/executor/ops.go:128-145 | each write one step; success means that exactly this file has moved, verified, failure that at most the destination it created is left |
| Executor.PlanExecutor.CopyAndVerify | internal/executor/ops.go:107-116 | success means that the destination was free and is now a copy with the expected digest |
| Executor.PlanExecutor.CopyFile | internal/executor/ops.go:47-86 | exclusive create, then a whole copy, or a clean-up that may fail too |
| Executor.PlanExecutor.CompletePlanExecution | internal/store/plan_execution.go:66-137 | terminal state and its journal evidence together or not at all; registration is composed in QuarantineRegistry |
| Executor.PlanExecutor.CompareAndSwapPlanState | internal/store/plan_execution.go:17-62 | a conditional update that never overwrites a newer state and demands an empty or settled journal where the source does |
| Executor.PlanExecutor.MarkJournalFailed | internal/store/sqlite.go:945-960 | the row becomes failed or nothing changes, and rollback goes on either way |
| Executor.PlanExecutor.MarkJournalDone | internal/store/sqlite.go:927-943 | the row becomes done with the actual target, or nothing changes |
| Executor.PlanExecutor.StaleCheckAll | internal/executor/executor.go:388-420 | no stale file if and only if every file an action touches is there with the planned size, digest, modification time, inode and device |
| Executor.PlanExecutor.ValidatePlanScope | internal/executor/executor.go:297-301 | accepts exactly the plans whose file actions name a path, the same path in their file, and a digest; roots and symlinks are left out |
| Executor.PlanExecutor.Recover | internal/executor/recovery.go:44-108 | a reported rollback has restored every file of a plan without twin copies, a reset has written none, a row with an open outcome locks the plan before anything is written, and anything else stays reserved |
| Executor.PlanExecutor.RollbackJournalEntry | internal/executor/recovery.go:120-141 | one row undone by its recorded paths, or failed |
| Scanner.VisitsAscend | internal/scanner/scanner.go:154-200 | files are visited in strictly ascending byte order of full path |
| Scanner.ZonesInOrder | internal/scanner/scanner.go:303-318 | with the directory sort key everything below one entry precedes everything below the next |
| Scanner.WalkFindsEveryFile | internal/scanner/scanner.go:160-276 | a plain walk visits exactly the files reachable through readable, admitted directories |
| Scanner.ResumeSkipsExactlyTheCovered | internal/scanner/scanner.go:201-215 | a resumed walk is the full walk without the events its boundary covers: no file, failure or completed directory above it is pruned |
| Scanner.ResumeVisitsTheRest | internal/scanner/scanner.go:30-40 | a resumed scan visits exactly the full scan's files above the boundary, in the same order |
| Scanner.SelectedDir | internal/scanner/scanner.go:197-199 | a restricted scan visits, in order, the visible files that are selected or lie on the way to a selected path |
| Scanner.SelectionIsExact | internal/scanner/scanner.go:133-199 | it visits exactly the visible selected files if and only if no visible file is in the way |
| Scanner.AFileInTheWayIsVisited | internal/scanner/scanner.go:197-199 | a tree and a selection for which a file is visited that was not selected |
| Scanner.LaterIsNotCovered | internal/scanner/scanner.go:267-274 | nothing that follows a visited file is settled by it as a boundary |
| Scanner.BoundaryIsSafe | internal/scanner/scanner.go:267-274 | a boundary handed out is safe: everything at or below it was settled before or has been visited, and nothing unreadable lies below it |
| Scanner.Scan.WalkDir | internal/scanner/scanner.go:160-276 | the recursion makes exactly the walk's events, or a prefix of them when it is stopped, and hands out exactly its boundaries |
| Scanner.Scan.WalkEntries | internal/scanner/scanner.go:186-266 | the same for the loop over one directory's entries |
| ScanSessions.RunIsSafe | internal/app/scan.go:345-398 | over any number of crashed, aborted, paused and resumed sessions every visible file at or below a durable boundary has a row and nothing unreadable lies below it |
| ScanSessions.NewBoundaryIsSafe | internal/app/scan.go:372-396 | moving the boundary after the rows are written keeps that |
| ScanSessions.LastCheckpoint | internal/store/sqlite.go:1228-1250 | the resumable checkpoint is the latest, and there is none behind a completed one |
| ScanSessions.MissingThoughPresent | internal/app/scan.go:715-740 | a finishing scan marks a present file missing if and only if it resumed at or above it while its row was unavailable |
| ScanSessions.CleanScanMatchesTheTree | internal/store/sqlite.go:1116-1163 | a clean scan that did not resume leaves active rows equal to the tree if and only if no present file had an inactive row |
| ScanSessions.CleanScanKeepsAMissingRow | internal/store/sqlite.go:1116-1163 | a clean scan that visits the only file of a tree and leaves its row missing |
| ScanSessions.PresentFilesStayActive | internal/app/scan.go:715-740 | in runs without a network pause no present file is ever marked missing or unavailable |
| ScanSessions.PauseLosesAPresentFile | internal/store/sqlite.go:199-242 | a pause followed by a crash and a resume marks a present file missing |
| ProgressiveHashing.QuickReader | internal/fingerprint/hash.go:44-62 | what is fed to the hasher for any recorded size and any content, an error if a large file has become too short; at the recorded size it is all of the content, or its first and last sample |
| ProgressiveHashing.ResumeHashCandidates | internal/app/scan_resume_candidates.go:15-52 | exactly the unvisited prefix members of groups with a second member and a missing full hash are selected |
| ProgressiveHashing.Resume.RevisitCandidates | internal/app/scan.go:516-561 | whenever the loop ends at all, the method ends where the passes end, and succeeds if and only if no candidate is left then |
| ProgressiveHashing.AFileInTheWayRepeatsForever | internal/app/scan.go:539-542 | a source whose directory has become a file, from the start of its scan: after one pass the loop is stuck and never ends |
| ProgressiveHashing.EndsUnlessStuck | internal/app/scan.go:516-561 | for every source and state the loop ends if and only if it reaches no state in which a pass sees as many files as it asked for and all were visited before |
| ProgressiveHashing.NothingInTheWayEnds | internal/app/scan.go:516-561 | with no file where a cached directory is expected the loop ends |
| ProgressiveHashing.ObservedIsTheWalk | internal/scanner/scanner.go:133-199 | what a pass sees is exactly what the restricted walk of a tree with these files visits |
| ProgressiveHashing.Resume.FullHash | internal/app/scan.go:563-651 | every visit that shares size and sample with another and has no full hash gets one or is reported as failed; all others stay as they are |
| ProgressiveHashing.PendingVisits | internal/app/scan.go:563-586 | the groups of two or more, and in them exactly the visits without a full hash |
| ProgressiveHashing.Resume.FinishHashing | internal/app/scan.go:512-651 | the resume loop and then the full-hash stage: when both succeed, any two visible files share a full hash exactly when their contents are equal |
| ProgressiveHashing.TwoStagesFindAllDuplicates | internal/app/scan.go:563-651 | grouping the rows of the cache prefix and of all visits by full hash is grouping every visible file by content, though only files sharing size and sample were hashed in full |
| DecisionBatches.ReplayIsUninterrupted | internal/store/governance_batch.go:161-242 | a batch that dies any number of times and is replayed with its key ends with the decisions, outcomes and audit of one uninterrupted call |
| DecisionBatches.OutcomesAreForever | internal/store/governance_batch.go:246-258 | in runs of both writers, with the guard and the clock changing between any two transactions, a recorded outcome is never rewritten and a complete batch stays complete |
| DecisionBatches.CompleteCoversThePreview | internal/store/governance_batch.go:238-241 | COMPLETE holds only when exactly the previewed groups have outcomes |
| DecisionBatches.SavedAdvancesByOne | internal/store/governance_batch.go:275-307 | each SAVED outcome moved its eligible item from the previewed revision to the next |
| DecisionBatches.NoLostUpdates | internal/store/decisions.go:66-113 | across both writers the SAVED audit rows of a group form a gapless chain of revisions up to the current one |
| DecisionBatches.HistoryAcceptsEveryState | internal/store/governance_history.go:58-136 | every database such a run reaches is accepted by the strict history reader |
| DecisionBatches.GuardClosesBetweenItems | internal/store/governance_batch.go:246-274 | a run in which the guard closes inside a call: the next item is recorded as blocked by the changed safety state |
| DecisionBatches.GetBatchDecisionResult | internal/store/governance_batch.go:321-374 | one line per previewed item, counts per status, and they add up |
| DecisionBatches.GovernanceStore.CommitBatchDecisions | internal/store/governance_batch.go:161-242 | the call does what the specification does when it dies after some number of transactions |
| DecisionBatches.GovernanceStore.CommitItems | internal/store/governance_batch.go:223-241 | the item loop, stopped anywhere |
| DecisionTimestamp.KeysAreChronological | internal/store/decision_timestamp.go:86-92 | for all accepted timestamps string order of the keys is chronological order, and equal keys mean equal instants |
| DecisionTimestamp.AcceptedIffWritten | internal/store/decision_timestamp.go:21-84 | exactly the strings of the grammar that name a real civil time with a four-digit UTC year are accepted, and read as written |
| DecisionTimestamp.KeyIsIdempotent | internal/store/decision_timestamp.go:86-92 | the key of a key is that key |
| DecisionTimestamp.HistoryOrderAgrees | internal/store/governance_history.go:43-51 | on canonical UTC strings the history page's padded columns sort like the keys |
| DecisionTimestamp.UTCKeepsTheInstant | internal/store/decision_timestamp.go:78-82 | normalising to UTC, across midnight and year ends, keeps the instant |
| DecisionTimestamp.ParseDecisionTimestamp | internal/store/decision_timestamp.go:21-84 | the scanning parser computes the grammar's reading |
| Lifecycle.AtMostOneUnresolved | internal/app/write_gate.go:11-25 | in every reachable state at most one source plan, restore or purge is unresolved, though a crash frees the lock |
| Lifecycle.NothingStartsBehindAReservation | internal/app/execution.go:151-238 | while anything is unresolved no step adds a reservation and no other source plan is touched, except by human approval |
| Lifecycle.StepIsExclusive | internal/app/quarantine.go:103-112 | every interleaved step keeps that |
| Lifecycle.HoldsAndRestoresAreFinal | internal/store/restore.go:185-214 | a held item is only ever on hold or restored, and a restored item has no draft purge |
| Lifecycle.PurgedOnlyInOrder | internal/store/deletion.go:351-423 | PURGED is reached only from PURGE_ELIGIBLE, unprotected, after retention, by the purge holding the lock at commit_pending |
| Lifecycle.PurgeRowsMoveInOrder | internal/store/deletion.go:351-423 | in every run a committed purge row was pending, later staged and later commit_pending before |
| Lifecycle.RestoreEndsOnce | internal/store/restore.go:146-214 | every run contains at most one mark that ends a restore, it consumes the pending reservation, and from then on neither the plan nor its row changes |
| RestoreExecutor.Executor.ExecuteRestore | internal/executor/restore.go:106-149 | in every state a crash can leave, the content is whole at one end, an existing destination is untouched, and a terminal row tells where the content is |
| RestoreExecutor.Executor.MoveFile | internal/executor/ops.go:128-145 | the move back, state by state |
| RestoreExecutor.Executor.ReconcileRestore | internal/executor/restore.go:165-207 | rolled back only when the quarantine copy is intact and the destination absent |
| RestoreExecutor.Executor.ValidateRestore | internal/executor/restore.go:54-104 | accepts exactly an approved plan that agrees with its item, in scope, for a restorable item with an intact copy and a free destination |
| QuarantineRegistry.EveryQuarantineIsManaged | internal/store/deletion.go:50-94 | a verified plan leaves a managed item per quarantine or delete if and only if no earlier item holds one of its paths |
| QuarantineRegistry.VerifiedIsRegistrable | internal/store/plan_execution.go:66-137 | what a run that ends VERIFIED has recorded can be registered: a row per quarantine, no two with one target |
| QuarantineRegistry.VerifiedQuarantinesAreManaged | internal/store/deletion.go:50-94 | over all runs: VERIFIED with its registration leaves a managed item per quarantine or delete if and only if no path the run used was in the table before |
| QuarantineRegistry.RegisterQuarantines | internal/store/deletion.go:50-94 | the registration loop, stopped by incomplete evidence |
| QuarantineRegistry.RestoredPathIsNotManaged | internal/store/deletion.go:78-90 | an item restored earlier keeps its path from being managed again |
| DirectoryRules.SelectionSort | internal/dircontext/rules.go:146-156 | the in-place loops compute the sort the lemmas are about |
| DirectoryRules.SortSorts | internal/dircontext/rules.go:146-156 | the active signals are in descending authority |
| DirectoryRules.SortKeepsSignals | internal/dircontext/rules.go:75-83 | sorting neither loses nor invents a signal |
| DirectoryRules.LearnedRulesNeverOverride | internal/dircontext/rules.go:40-83 | for any built-in and any capped learned signals, a path that the former call sensitive or place above the cap is classified the same |
| DirectoryRules.LearnedRulesNeverUnprotect | internal/dircontext/classifier.go:53-74 | with the built-in table, no learned rule changes a protected path, an archive or a project |
| DirectoryRules.BuiltinWinsTies | internal/learning/rule.go:148-152 | a learned rule changes what the table decides only if it outranks it, although the sort is not stable |
| DirectoryRules.LeaderStays | internal/dircontext/rules.go:146-156 | the first signal of its authority stays the first one through every swap |
| RuleDefinition.DefinitionRoundTrips | internal/learning/rule.go:143-146 | a printed rule parses back to the same term, role and authority if and only if the name is a non-empty line, the role is known and the authority is not negative |
| RuleDefinition.ParseDirectorySignal | internal/dircontext/parse.go:20-66 | the line loop computes that parser |
| RuleDefinition.DecimalParses | internal/dircontext/parse.go:79-88 | with wrapping 64-bit arithmetic every printed number in range is read back |
| LearnedRules.ApprovedDraftIsInForce | internal/learning/rule.go:54-78 | a generated draft, once approved, is accepted with exactly the term, role and authority it was generated for |
| LearnedRules.RuleSet.MergeLearned | internal/dircontext/rules.go:40-62 | the learned signals become those of the enabled rules in force, capped and sorted |
| LearnedRules.RuleSet.ClassifySegments | internal/dircontext/classifier.go:53-74 | the loops compute the classification, and no rule that was ever merged overrules protection or wins a tie |
| RetentionPlan.WinnerIsBest | internal/planner/planner.go:166-186 | the first of the sorted copies is preferred to every other |
| RetentionPlan.OnlyOneIsBest | internal/planner/planner.go:166-186 | and it is the only such copy |
| RetentionPlan.OrderDoesNotMatter | internal/planner/planner.go:54-104 | the decision, the retained path, its score and each copy's action do not depend on the order of the group |
| RetentionPlan.KeepsTheBest | internal/planner/planner.go:246-256 | a plan only asks for review, or keeps the best copy and quarantines others |
| RetentionPlan.KeepsExactlyOne | internal/planner/planner.go:246-256 | it keeps exactly one copy if and only if no other path cleans to the retained one |
| RetentionPlan.TwoSpellingsAreBothKept | internal/planner/planner.go:246-256 | of two disposable copies whose different paths clean to one path, both are kept |
| RetentionPlan.KeptCopyIsUntouched | internal/executor/executor.go:236-285 | in every run, rollback and recovery of the plan a kept copy stays where it is with what it holds |
| RetentionPlan.BystanderIsUntouched | internal/executor/ops.go:47-145 | the same for any existing file that a plan names as no source |
| RetentionPlan.LearnedRulesNeverQuarantine | internal/planner/planner.go:70-89 | no learned rule makes a plan quarantine anything beside a copy the table protects or calls an archive or a project |
| RetentionPlan.OneProtectedMeansReview | internal/planner/planner.go:70-89 | one copy that is guarded, or neither temporary nor cache, sends the whole group to review |
| RetentionPlan.BuildGroup | internal/planner/planner.go:54-104 | the branches and loops make that plan |
| RetentionPlan.CountAnchors | internal/planner/planner.go:150-161 | anchors diverge if and only if two copies have different non-empty ones |
| PhysicalCopies.UInt64ToString | internal/domain/model.go:110-122 | every 64-bit number fits the buffer of twenty bytes and comes out in decimal |
| PhysicalCopies.PhysicalKeyIsInjective | internal/domain/model.go:102-107 | known objects have equal keys if and only if they are the same object |
| PhysicalCopies.SqlCountsCopies | internal/store/query.go:44-78 | the distinct keys the store counts, printed from signed numbers, are as many as the physical copies |
| PhysicalCopies.ComputePhysicalStats | internal/report/duplicates.go:72-106 | the count over key strings is the number of physical objects, and aliases make up the rest of the paths |
| GroupPages.EstimateIsReclaimable | internal/store/query.go:66-83 | the estimate a group is sorted by is the reclaimable size it is shown with |
| GroupPages.PagesListEveryGroup | internal/store/query.go:88-109 | following the next cursors ends and lists every group that passes the filters exactly once, in order |
| GroupPages.FollowListsTheRest | internal/store/query.go:88-101 | from any cursor, of a group that still exists or not, the pages list exactly what comes after it |
| GroupPages.Collect | internal/store/query.go:117-199 | the row loop finds every group once, in order, with all its members |
| GroupPages.ListDuplicateGroups | internal/store/query.go:26-256 | the rows of one query become the page the listing asks for |

## Left out

- Source and target roots, symlinks, mount points, file modes, empty-directory clean-up: the file map
  has paths and contents only; a probe is a correct read of it.
- `Executor.PlanExecutor.StaleCheckAll`: of modification time, inode and device only whether they agree is
  modelled, one flag per action.
- `Executor.PlanExecutor.ValidatePlanScope`: that paths are absolute and below the roots, and that no
  symlink leads out of them, because the file map has no directories.
- `Executor.PlanExecutor.CompletePlanExecution`: the quarantine rows the same transaction inserts, because
  `QuarantineRegistry` models them and composes them with the runs.
- `Executor.PlanExecutor.Execute`: for a plan that relocates a file two actions share, only what it reports
  is stated; content can then be lost.
- The contents of audit logs, timestamps of rows, task rows and plan persistence.
- The recovery lock and the process lock inside `ExecutionMachine`: `Lifecycle` models them.
- The walk's guard against a listing that repeats an entry: names in one directory are distinct.
- An unreadable root: the tree of `ScanSessions` has a readable root.
- `Scanner.Scan.WalkDir`: sorting by the key is a function of the model, not the library's in-place sort.
- `ProgressiveHashing.Resume.RevisitCandidates`: runs that never end have no outcome; a method here always
  ends, so it is called where `Ends` holds.
- A network pause or a cancellation during the full-hash stage: the scan is then paused or aborted, and no
  claim about duplicates is made.
- Worker pools: hashing is done in some order, one file after another; retries, delays and progress
  counters.
- The 131072-byte limits, key syntax and project scopes of decision batches; each transaction is a
  function on the whole store.
- `Lifecycle` transactions: functions on values, not methods that update rows in place; approval
  digests and evidence fields, which are copied from immutable items, are not compared again.
- Retention is compared as instants; the store's SQL compares stored text in one more place.
- Parent chains, branch points and how business anchors and dependency flags are found; the rule
  version hash; how roles and names are learned from statistics.
- `RuleDefinition.DefinitionRoundTrips`: names that are not valid UTF-8.
- `LearnedRules.RuleSet.MergeLearned`: the read and write locks of the shared rule set.
- Plan identifiers, evidence and reason texts.
- `RetentionPlan.WinnerIsBest`: the library's stable sort is a function of the model, not its in-place
  algorithm.
- `PhysicalCopies.ComputePhysicalStats`: byte counts are unbounded; 64-bit overflow of a product of sizes.
- `GroupPages.ListDuplicateGroups`: sample paths, the order of the members within a group, and the join
  with the latest decisions. The report built in memory sorts ties by group identifier instead.
- Command line, desktop and web adapters, media and format analysis, background jobs.
