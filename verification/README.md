# Agent Loop Controller: a verified model of its restart-safe core

Agent Loop Controller is a local control plane. Its hard promise is restart safety: every protocol may be
cut off between any two of its effects, repeated, and raced by other processes, and must still end in a state
that is accounted for. This project models those protocols in Dafny and proves what they keep.

## How the models work

* **Stops and retries.** Every effect is a method that may instead answer `Stopped`, which is the process ending
  there. A method's postcondition holds for stopped calls too, so what it says holds at every point between two
  effects. `Run`, `Attempts`, `ApplyRepeatedly` and `ReconcileRepeatedly` repeat operations any number of times.
* **Other processes.** Between one unlocked read and the next, and between a read and the lock that follows it,
  `Interfere` lets any number of other critical sections run, as well as edits of the live file by someone else. What
  an operation does under a lock is one method, so that others can be interleaved between critical sections and never
  inside one.
* **Calm runs.** A controller, a host or a coordinator may be `calm`: nothing fails or stops and nobody else acts.
  What must be kept is proved for all runs; what an operation then also achieves is proved for calm ones, so that
  every protocol is known to recover from whatever earlier attempts left behind. A `Resumed` object is the same
  state as a later process finds it; methods named `...After` run any stopped history and then one calm call.
* **Specification functions.** Store transactions are functions from an old store to a new one. Loops of the
  source are methods with loops; each is proved equal to a function, or to satisfy a property, that other lemmas
  reason about. Where cadence matters (the admission worker, the delivery loop, cleanup) a ghost trace records
  what happened, a small automaton says which traces are allowed, the methods prove that they only ever extend
  an allowed trace, and lemmas say what allowed traces have in common.

| module | what it covers |
|---|---|
| `ConfigurationStore`, `ConfigurationService` | durable generations, apply, reconcile, prune, the admission gates |
| `ConfigurationDraft`, `ConfigurationMigration` | binding a draft to the generation it became; schema migration and its replay |
| `SettingsEdits`, `Framing` | typed edits, findings and the semantic diff; the framing of digests |
| `LaunchdMigration` | moving a worker between two launchd identities and back, with stops and reboots |
| `AdmissionWorker` | concurrent dispatches over two buffered channels, in batches with maintenance |
| `ProductionDriver`, `OwnedCleanup`, `ReviewPolling` | the delivery loop, cleanup after a merge, bounded polling |
| `PlistReader`, `Scopes`, `PanelHeights` | the property-list reader, authorised scope sets, the row allocator |
| `Outcomes`, `Texts`, `Scheduling` | shared result types, text predicates and limits |

## Assumptions

* SQLite transactions are atomic, and rows are only appended or updated as the adapter's statements say.
* The replacement lock and the mutation lock are one exclusive lock.
* The exchange of the live and the staged file is one atomic step; a stop may come just before or after it.
* SHA-256 is injective. In the configuration models a digest is therefore the payload it was computed from.
* Materialisers of candidates are deterministic functions; a migrated candidate is valid in the current schema.
* launchd never loads a service by itself except at boot, when it loads every installed plist; link and unlink are
  atomic; writing the neutral plist is one step. A running worker holds the worker lock.
* The clock the worker observes never goes back. Started dispatches eventually end. A supervisor runs until its
  context is cancelled, after any number of turns.

## Findings

* Replaying a draft's apply after a stop is *not* always let through, even when no other generation was applied: a
  worker that merely becomes effective moves the authority version, and with it the preview
  (`ConfigurationDraft.ReplayRefused`). `ConfigurationDraft.ReplayAdmitted` gives the exact condition.
* A command that expects the exact authority version on record, and meets every other condition, is still refused
  exactly when its own observation of the runtime has something to record: an edit of the live file that came or
  went since last recorded (`ConfigurationService.ClearedDriftRefuses`), or a worker that first runs the desired
  configuration (`ConfigurationService.FreshWorkerRefuses`). `ConfigurationService.Controller.Apply` gives the exact
  condition. A new migration, whose source is effective, is refused exactly while a drift is on record
  (`ConfigurationMigration.MigrationService.Apply`).
* A draft can be applied while the generation it names is only accepted, or has failed. What is proved is which
  generation it names.
* Cleanup of a run whose working branch is its base branch never completes, however often it is repeated.
* After a reboot in the middle of a rollback's first move, migrate is refused while the neutral worker keeps
  running beside its disabled link; rollback still goes through (`LaunchdMigration.Host.MigrateIdentity`).
* The read-only gate and the reconciling gate admit for the same generation and digest, but the authority version
  is one higher when the reconciling gate has just cleared an earlier drift.
* An observation without a time is refused by the read-only gate and admitted, without an authority to hand on, by
  the reconciling one.
* With fewer than four rows a panel the allocator hands out only base heights, which add up to at least the rows
  there are, and usually to more.
* A scope set is determined by its elements exactly when no two of them differ in their target binding alone.

## Model

| member | source | states |
|---|---|---|
| ConfigurationStore.BeginComparesAndSwaps | internal/adapters/sqlite/configuration_authority.go:231-348 | a new apply is accepted exactly when its operation is unknown, nothing is unsettled, desired generation, digest and version are the expected ones, and no claim, rollback rule or busy lane forbids it |
| ConfigurationStore.BeginKeeps | internal/adapters/sqlite/configuration_authority.go:231-348 | accepting an apply keeps the authority well formed and only adds to its history; the new generation's parent is the desired one |
| ConfigurationStore.UnknownIsUnmade | internal/adapters/sqlite/configuration_authority.go:231-348 | an operation without a receipt has made no generation |
| ConfigurationStore.ProvenanceMeans | internal/application/configuration_authority.go:154-165 | a provenance is complete exactly when a rollback names a generation, an onboarding carries its prefix, and a migration a printable request id |
| ConfigurationStore.SettleKeeps | internal/adapters/sqlite/configuration_authority.go:390-508 | every settlement keeps the authority well formed, loses no history and touches no prune claim |
| ConfigurationStore.CommitKeeps | internal/adapters/sqlite/configuration_authority.go:390-508 | committing makes the accepted generation the one desired generation and supersedes its parent, keeping the invariant |
| ConfigurationStore.WithholdKeeps | internal/adapters/sqlite/configuration_authority.go:390-508 | failing or suspending an apply keeps its parent desired and the invariant |
| ConfigurationStore.SettlementTouches | internal/adapters/sqlite/configuration_authority.go:390-508 | a settlement changes the settled generation, its receipt and, when it commits, the parent it supersedes and the drift it clears, and nothing else |
| ConfigurationStore.SettledForGood | internal/adapters/sqlite/configuration_authority.go:390-508 | settling again the same way changes nothing, settling another way is refused |
| ConfigurationStore.SettledIff | internal/adapters/sqlite/configuration_authority.go:390-508 | a settlement goes through exactly for the apply it names, unless that was settled another way |
| ConfigurationStore.NoOpKeeps | internal/adapters/sqlite/configuration_authority.go:183-229 | a no-op adds a receipt and nothing else |
| ConfigurationStore.NoOpIff | internal/adapters/sqlite/configuration_authority.go:183-229 | a no-op goes through exactly for what is desired already with nothing unsettled, unless its operation has another receipt |
| ConfigurationStore.EffectiveOnce | internal/adapters/sqlite/configuration_authority.go:510-557 | an effective observation makes desired and effective one, moves the version once, and repeats without effect |
| ConfigurationStore.ObserveEffectiveKeeps | internal/adapters/sqlite/configuration_authority.go:510-557 | it keeps the authority well formed and the desired generation |
| ConfigurationStore.ObserveDriftKeeps | internal/adapters/sqlite/configuration_authority.go:559-611 | a drift transition changes only the drift flag and the version |
| ConfigurationStore.ObservedIff | internal/adapters/sqlite/configuration_authority.go:510-611 | an observation goes through exactly for the desired generation and its digest, an effective one only with nothing unsettled |
| ConfigurationStore.ClaimKeeps | internal/adapters/sqlite/configuration_authority.go:727-751 | a digest is claimed for pruning only while no live generation uses it |
| ConfigurationStore.ClaimedIff | internal/adapters/sqlite/configuration_authority.go:727-751 | a digest is claimed exactly when no generation but superseded and failed ones has it |
| ConfigurationStore.CompleteKeeps | internal/adapters/sqlite/configuration_authority.go:753-795 | completing a claim is never refused, because claimed digests stay unused, and forgets only raw bytes |
| ConfigurationStore.EveryTransactionCounts | internal/adapters/sqlite/configuration_authority.go:183-795 | every transaction moves the version by one exactly when it changes which generation is desired, which is effective, or whether live strayed |
| ConfigurationStore.PruneKeepsHistory | internal/adapters/sqlite/configuration_authority.go:660-708 | candidates never include the desired, an unsettled or one of the newest retained generations |
| ConfigurationStore.IncompleteSound | internal/adapters/sqlite/configuration_authority.go:74-89 | the intent found is unsettled, and none is found only when none is |
| ConfigurationStore.UnsettledUnique | internal/adapters/sqlite/configuration_authority.go:74-89 | at most one apply is ever unsettled |
| ConfigurationService.ReplayNames | internal/application/configuration_service.go:403-449 | a replayed answer names the one generation, or the no-op, of its operation, with the receipt that goes with it; every receipt can be replayed |
| ConfigurationService.NamesLater | internal/application/configuration_service.go:403-449 | an answer stays right in every later state of the authority |
| ConfigurationService.RetriesAgree | internal/application/configuration_service.go:191-351 | two answers to one command, whatever ran in between, name the same generation or the same no-op |
| ConfigurationService.OneGenerationPerOperation | internal/application/configuration_service.go:191-351 | one command makes at most one generation |
| ConfigurationService.LiveIsAccounted | internal/application/configuration_service.go:116-351 | the invariant of the live file means: live is the desired configuration, or exactly one apply is unsettled and live is its parent or target |
| ConfigurationService.RawsAreEvidence | internal/application/configuration_service.go:821-856 | the raw bytes of the desired generation and of every unsettled target are kept |
| ConfigurationService.Controller.Run | internal/application/configuration_service.go:116-351 | both hold after any sequence of applies and reconciliations, stopped and raced between any two of their unlocked reads and locked sections, as long as nobody else wrote the live file |
| ConfigurationService.Controller.Apply | internal/application/configuration_service.go:191-351 | whatever stops it or interferes, a success names its command's generation or no-op with the receipt that goes with it, and the file and store invariants hold; in a calm run with live accounted for, a retry succeeds exactly for those who may ask, with a settled receipt, and a new command exactly when the desired configuration is live and the command meets every condition on the store that observing the runtime leaves, its expected version included; it then answers the generation as it stands desired with its settled receipt, and what it asked for is desired and live; otherwise its error says which condition failed |
| ConfigurationService.ApplyAfter | internal/application/configuration_service.go:191-351 | after any stopped and interfered sequence of applies and reconciliations that left live accounted for, one calm apply succeeds under exactly those conditions |
| ConfigurationService.Controller.Propose | internal/application/configuration_service.go:253-350 | the compare-and-swap, live and target checks let a new command through exactly when it is acceptable to the authority |
| ConfigurationService.Controller.Replace | internal/application/configuration_service.go:280-350 | a generation accepted for the command is given up only after an attempt to reconcile it, or with its target live |
| ConfigurationService.Controller.AfterFailure | internal/application/configuration_service.go:311-342 | after a failed replacement one reconciliation decides: in a calm run the apply succeeds exactly when that made its generation the desired one |
| ConfigurationService.Controller.ApplySection | internal/application/configuration_service.go:275-350 | under the lock, a success that made a generation leaves it desired and live, with nothing unsettled, and answers it as it then stands with its settled receipt; in a calm run a known command succeeds, and a new one exactly when the store accepts it |
| ConfigurationService.Controller.Publish | internal/application/configuration_service.go:311-350 | replacing, verifying and committing ends, on success, with the target desired and live and answered as such, its receipt settled; in a calm run it succeeds |
| ConfigurationService.Controller.AfterCommit | internal/application/configuration_service.go:344-350 | what is answered is the committed generation as it stands in the store once the runtime is observed and the history pruned, with the settled receipt on record |
| ConfigurationService.AnswerKept | internal/application/configuration_service.go:344-350 | pruning after the commit makes no answer untrue |
| ConfigurationService.Controller.VerifyAndCommit | internal/application/configuration_service.go:329-350 | only a live file read back as the candidate is committed |
| ConfigurationService.Controller.Prelude | internal/application/configuration_service.go:191-240 | what is answered before anything is applied is a replay of the same command; in a calm run a new command passes exactly when it is complete and authorised, with the runtime observed |
| ConfigurationService.Controller.Resolve | internal/application/configuration_service.go:216-228 | reconciliation first settles what is pending, so that every known command is answered |
| ConfigurationService.Controller.Observe | internal/application/configuration_service.go:224-245 | after reconciliation a known command is answered, a new one passes exactly when it is complete and authorised, and the store is what observing the runtime makes of it |
| ConfigurationService.ProposableLater | internal/application/configuration_service.go:353-362 | observing the runtime takes no condition of a new command away but the version it expects |
| ConfigurationService.NoticedIsProposable | internal/application/configuration_service.go:224-257 | a command that meets every condition keeps them through the observation exactly when it expects no version or the observation has nothing to record |
| ConfigurationService.ObservingMoves | internal/application/configuration_service.go:461-531 | an observation moves the version exactly when live strayed or came back, or a fresh worker first runs the desired configuration; otherwise it leaves the store as it is |
| ConfigurationService.Controller.ReconcileRuntimeBestEffort | internal/application/configuration_service.go:353-362 | a service without an observer records nothing, and any other exactly what there is to record, if its writes succeed; it hands on the authority it ends with, or the one known before when another generation has become desired |
| ConfigurationService.ClearedDriftRefuses | internal/application/configuration_service.go:224-256 | a concrete command refused because an observed edit was put back |
| ConfigurationService.FreshWorkerRefuses | internal/application/configuration_service.go:224-256 | a concrete command refused exactly when a worker has come up |
| ConfigurationService.PendingIsNotStuck | internal/application/configuration_service.go:116-136 | what is still accepted can be reconciled: it is never the suspended apply |
| ConfigurationService.NothingPending | internal/application/configuration_service.go:403-406 | once nothing is unsettled every known command has an observed receipt |
| ConfigurationService.Controller.ApplyRepeatedly | internal/application/configuration_service.go:191-351 | all successful answers of any number of retries agree |
| ConfigurationService.Controller.SettleNoOp | internal/application/configuration_service.go:451-459 | an unchanged candidate is answered with the desired generation and a receipt |
| ConfigurationService.Controller.Reconcile | internal/application/configuration_service.go:116-180 | it keeps every invariant however it ends; in a calm run it settles an accepted apply by what the live and the staged file prove, as committed, failed or, when they prove neither parent nor target, suspended; a suspended one is refused and left as it is, and with nothing unsettled nothing changes |
| ConfigurationService.Controller.SettleSection | internal/application/configuration_service.go:137-180 | a success settles the accepted apply as committed exactly when its target is live, after which live equals desired; in a calm run the accepted apply is always settled, and answered, as the live and the staged file tell |
| ConfigurationService.Controller.SettleUnresolved | internal/application/configuration_service.go:182-189 | it answers unresolved and leaves the desired generation alone; in a calm run an apply still accepted is suspended |
| ConfigurationService.SettleOutcome | internal/adapters/sqlite/configuration_authority.go:390-508 | an apply that is still accepted ends in the state it is settled as |
| ConfigurationService.IntactIsConclusive | internal/application/configuration_service.go:137-180 | while live is accounted for, what it proves is never contradictory: no such apply is suspended |
| ConfigurationService.Controller.LiveEvidence | internal/application/configuration_service.go:137-166 | while the apply is unsettled both snapshots it is judged against are there; in a calm run what is proved live is a function of the live and the staged file |
| ConfigurationService.Controller.ReplaceLive | internal/adapters/configuration/files.go:812-876 | one exchange with any stop keeps live at parent or target; an edit that slipped in is still live or staged afterwards; over another live file or a staged one nothing is attempted, and a failure nobody else caused leaves both files exchanged or both as they were |
| ConfigurationService.Controller.ReconcileReplacement | internal/adapters/configuration/files.go:878-926 | it proves what is live without changing it, unless a foreign edit was captured, which it puts back; in a calm run it proves exactly what the live and the staged file tell |
| ConfigurationService.Controller.PruneLocked | internal/application/configuration_service.go:830-850 | pruning keeps every invariant and changes only retained raw bytes; a calm one leaves no claim, nothing to prune and no raw bytes that no generation refers to |
| ConfigurationService.NothingToPrune | internal/adapters/sqlite/configuration_authority.go:660-708 | once every candidate is forgotten there is no further candidate |
| ConfigurationService.Controller.CompleteRawPrune | internal/application/configuration_service.go:852-856 | a claimed digest is removed and its claim completed without touching what is in use |
| ConfigurationService.Controller.RemoveUnreferencedRaws | internal/application/configuration_service.go:377-401 | only raw bytes no retained generation refers to are removed |
| ConfigurationService.Controller.ReconcileRuntime | internal/application/configuration_service.go:461-531 | it records exactly the drift and the effectiveness there are to record and nothing else, and with its writes it answers for every observed runtime; with nothing to record the store stays as it is |
| ConfigurationService.ReadOnlyGateSound | internal/application/configuration_service.go:577-599 | the read-only gate admits exactly when nothing is unsettled, desired, effective, loaded and live agree, the raw bytes are kept and the observation has a time |
| ConfigurationService.ReadyMeansConverged | internal/application/configuration_service.go:612-660 | the projection is ready exactly in those converged states, in conflict exactly with something unsettled or another live file, and otherwise waits for a fresh worker, for one that has loaded the desired configuration, or for that to be on record |
| ConfigurationService.Controller.CheckNewAdmission | internal/application/configuration_service.go:560-575 | the reconciling gate admits only converged states; when its store writes succeed it admits exactly those, and whatever the read-only gate admits for the same generation and digest; its authority is the desired generation at the current version until the last heartbeat goes stale, and an observation without a time gives an admission without an authority |
| ConfigurationDraft.BindKeeps | internal/adapters/sqlite/configuration_draft.go:192-251 | every binding transaction keeps a draft naming only generations of its own settings |
| ConfigurationDraft.BoundIff | internal/adapters/sqlite/configuration_draft.go:192-251 | a binding goes through exactly at its own revision, for the preview that was applied, from a state it may leave, and never against another operation |
| ConfigurationDraft.BindingIsFinal | internal/adapters/sqlite/configuration_draft.go:192-251 | an applied or suspended draft stays as it is, a result never goes away nor to another operation, and binding again changes nothing |
| ConfigurationDraft.DraftLater | internal/application/configuration_draft.go:575-655 | nothing the authority does later makes a bound draft untruthful |
| ConfigurationDraft.AnswerFits | internal/application/configuration_draft.go:636-648 | what a successful apply answers has the draft's materialised digest and, unless a no-op, its rollback provenance |
| ConfigurationDraft.UnfinishedFits | internal/application/configuration_draft.go:742-769 | so has what an unfinished apply is bound to |
| ConfigurationDraft.AnswerBinds | internal/adapters/sqlite/configuration_draft.go:192-251 | once answered, binding fails only if the draft is bound to another operation; it repeats without effect and is never reopened |
| ConfigurationDraft.AdmitsIff | internal/application/configuration_draft.go:585-635 | an apply goes on exactly for a draft open on the desired generation, or applying over its base or its own candidate, with a preview that still holds, or one whose effect is on record |
| ConfigurationDraft.ReplayAdmitted | internal/application/configuration_draft.go:575-635 | repeating the apply of an interrupted draft goes on exactly when its own generation stands, it changes nothing, or the previewed authority version still holds |
| ConfigurationDraft.InterruptedIsCompletable | internal/application/configuration_draft.go:575-655 | an interrupted draft whose own generation stands is completable whatever its settlement was, with nothing asked of the authority version |
| ConfigurationDraft.CompletableIff | internal/application/configuration_draft.go:575-655 | an interrupted draft whose command the store would take or knows is completable exactly when it changes nothing, the previewed authority version still holds, or its own generation stands |
| ConfigurationDraft.UnbegunIsAppliable | internal/application/configuration_draft.go:575-655 | stopped before anything was accepted, its command is as good as new |
| ConfigurationDraft.ReplayRefused | internal/application/configuration_draft.go:618-628 | a worker becoming effective in between is enough for a refusal, with no other generation applied |
| ConfigurationDraft.DraftService.Apply | internal/application/configuration_draft.go:575-655 | a success leaves the draft applied, naming the answered generation; with an answer in hand it fails only on a draft that moved on; in a calm run it completes every completable draft and, with no other apply in the way, nothing else, and a failed apply leaves the draft bound to its own generation if that stands, suspended exactly when the generation is, and otherwise open and free of any preview; what the guards refuse changes nothing |
| ConfigurationDraft.OwnIsFound | internal/application/configuration_draft.go:742-769 | a generation of the draft's own that stands is always found, whatever was tried since |
| ConfigurationDraft.FailureIsTruthful | internal/application/configuration_draft.go:636-769 | after a failure the draft is bound to its own standing generation, suspended exactly when that is ambiguous; reopened, nothing of its own is unsettled or desired; it is never left applying without a generation |
| ConfigurationDraft.ApplyAfter | internal/application/configuration_draft.go:575-655 | after one apply of a draft, stopped and interfered with anywhere, a calm one succeeds exactly when the draft is completable or was applied by the same command; left applying with no generation but its own, the draft is an interrupted one |
| ConfigurationDraft.InterruptedIsUndisturbed | internal/application/configuration_draft.go:575-655 | no other apply is in the way of an interrupted draft |
| ConfigurationDraft.DraftService.Conclude | internal/application/configuration_draft.go:636-650 | the outcome is recorded truthfully whatever others did to the draft meanwhile; a failure is passed on unchanged, and in a calm run recorded as what is left of the apply |
| ConfigurationDraft.DraftService.RecordFailure | internal/application/configuration_draft.go:742-769 | the draft becomes exactly what a failed apply leaves of it |
| ConfigurationDraft.DraftService.AppliedReplay | internal/application/configuration_draft.go:771-793 | replaying an applied draft answers exactly the command that applied it, with the generation it names and the materialised digest |
| ConfigurationMigration.ApplyMigrates | internal/application/configuration_migration.go:108-195 | an answer to a migration's apply is a generation made from the previewed source, in the target schema, never a no-op |
| ConfigurationMigration.MigrationsAgree | internal/application/configuration_migration.go:108-195 | one migration command answered twice is one generation |
| ConfigurationMigration.MigrationsDiffer | internal/application/configuration_migration.go:209-260 | commands that differ in request id, requester or any previewed part make different generations |
| ConfigurationMigration.RetriableEvidence | internal/application/configuration_migration.go:161-192 | the replay evidence of an accepted migration is always complete, and its target bytes are kept while it is pending |
| ConfigurationMigration.CompleteIff | internal/application/configuration_migration.go:108-111 | a complete command takes one of the three older schemas to the current one, from a named generation and version, under a printable request id |
| ConfigurationMigration.MigrationService.ExactReplay | internal/application/configuration_migration.go:161-195 | the replay path answers only with the command's own generation, and finds nothing only if the command was never accepted |
| ConfigurationMigration.MigrationService.Resume | internal/application/configuration_migration.go:178-192 | an accepted replay is applied again from the retained bytes and stays the same generation |
| ConfigurationMigration.MigrationService.Checked | internal/application/configuration_migration.go:115-153 | a fresh migration goes on only with the previewed source and candidate and, while the source is desired, under exact convergence |
| ConfigurationMigration.MigrationService.Apply | internal/application/configuration_migration.go:108-159 | every success is the command's one generation; in a calm run a retry of an accepted migration succeeds with a settled receipt, and a new one exactly when it meets every condition and no drift is on record: it then answers the generation as it stands desired, and otherwise one of the errors its failed conditions give |
| ConfigurationMigration.DriftedMigration | internal/application/configuration_migration.go:108-159 | a migration that meets every condition but for a drift on record, from an effective source that was edited and put back |
| ConfigurationMigration.MigrationService.ApplyRepeatedly | internal/application/configuration_migration.go:108-159 | so are all successes of any number of retries |
| SettingsEdits.SettingsFindings | internal/application/configuration_draft.go:881-910 | validation reports exactly what is out of bounds or in conflict, each once, and nothing about disabled admission; the lease conflict exactly when a positive lease is shorter than two renewals |
| SettingsEdits.AppendFinding | internal/application/configuration_draft.go:912-919 | a finding is appended unless it is there already |
| SettingsEdits.EditSetsField | internal/application/configuration_draft.go:814-879 | an edit is accepted exactly within bounds and changes its field only |
| SettingsEdits.EditRejections | internal/application/configuration_draft.go:814-879 | why an edit is rejected: an unknown field, not exactly one value, no flag where one is due, and otherwise bounds or type |
| SettingsEdits.EditsLeaveLeaseConflict | internal/application/configuration_draft.go:814-910 | however settings within bounds are edited, the lease conflict is the only finding left, and exactly when renewal exceeds half the lease |
| SettingsEdits.ReportIsFieldwise | internal/application/configuration_draft.go:942-991 | grouping by category neither loses, adds nor reorders a reported change |
| SettingsEdits.ReportIsTruthful | internal/application/configuration_draft.go:942-991 | every reported change names fields that changed, with the values they had and have, under the category that says what happened |
| SettingsEdits.ReportRebuilds | internal/application/configuration_draft.go:814-991 | folding the reported changes into the old settings gives the new ones, exactly when what changed is within bounds |
| SettingsEdits.ReportEmptyIffEqual | internal/application/configuration_draft.go:942-991 | the report is empty exactly when nothing changed |
| SettingsEdits.PreviewImpacts | internal/application/configuration_draft.go:993-1005 | the drain impact is reported exactly when capacity decreases |
| Framing.HashInput | internal/application/configuration_authority.go:403-410 | the loop feeds the hash each part followed by a NUL |
| Framing.FramesReadBack | internal/application/configuration_authority.go:403-410 | parts without NUL are read back from their frame |
| Framing.FramesAreUnique | internal/application/configuration_authority.go:403-410 | two lists of such parts share a frame only if they are equal |
| Framing.UnframedReadsBack | internal/application/configuration_authority.go:403-410 | whatever reads back frames to the same text |
| Framing.DigitsArePlain | internal/application/configuration_service.go:697-709 | a number is rendered in digits that read back to it, without a leading zero |
| Framing.DecimalIsUnique | internal/application/configuration_service.go:697-709 | decimal rendering tells all integers apart |
| Framing.AnchorsAgree | internal/application/configuration_service.go:697-709 | two applies share an anchor input exactly when expected generation, expected digest, candidate, kind and sources agree |
| Framing.SourcesAreUnique | internal/application/configuration_authority.go:154-165 | within a kind, the framed sources determine a valid provenance |
| LaunchdMigration.AdviceIsSound | cmd/agentctl/launchd_migration.go:464-507 | in every safe state the advised action will not be refused, and the final phases are exactly the final states |
| LaunchdMigration.PhasesMean | cmd/agentctl/launchd_migration.go:464-507 | what each phase says about files and services, every state being in exactly one, and what it advises |
| LaunchdMigration.Host.Move | cmd/agentctl/launchd_migration.go:604-636 | a move cut off anywhere leaves the file under at least one of its two names and, if under both, as one file; a success is exactly the rename |
| LaunchdMigration.Host.InstallNeutral | cmd/agentctl/launchd_migration.go:256-287 | the file moves of a migration keep the host safe at every step and end with neutral installed, legacy backed up and nothing disabled |
| LaunchdMigration.Host.RestoreLegacy | cmd/agentctl/launchd_migration.go:354-379 | the file moves of a rollback keep the host safe at every step and end with legacy installed and neutral not |
| LaunchdMigration.Host.MigrateIdentity | cmd/agentctl/launchd_migration.go:213-311 | it keeps the host safe however it ends, and a success is the migrated state; beside the opposite supervisor it is refused and touches nothing, and so it does when migrated already; in a calm run it is refused exactly when the neutral worker runs beside a disabled link, and succeeds from every other reachable state; a neutral plist there was before is put back, not written anew |
| LaunchdMigration.Host.RollBack | cmd/agentctl/launchd_migration.go:313-393 | it keeps the host safe however it ends, and a success is the rolled-back state, with the neutral plist kept disabled and the legacy one under its own name only; beside the opposite supervisor, with nothing to roll back to or when rolled back already it touches nothing; in a calm run it succeeds exactly when there is a backup or a disabled link, reboots included |
| LaunchdMigration.Host.ClaimWorkerLock | cmd/agentctl/launchd_migration.go:695-745 | the fence is held only while no worker runs |
| LaunchdMigration.Host.Reboot | cmd/agentctl/launchd_migration.go:213-393 | a reboot keeps the host safe; it ends the tidy state exactly in the middle of the neutral move |
| LaunchdMigration.Host.Run | cmd/agentctl/launchd_migration.go:213-393 | over any sequence of migrations, rollbacks and reboots, each stopped anywhere, the two services are never both loaded, the two plists never both installed, and the original legacy file stays under one of its names |
| LaunchdMigration.MigrateAfter | cmd/agentctl/launchd_migration.go:213-393 | after any such sequence one calm migration ends migrated, unless the neutral worker runs beside its disabled link, which takes a reboot |
| LaunchdMigration.RollBackAfter | cmd/agentctl/launchd_migration.go:213-393 | after any such sequence one calm rollback ends rolled back, unless there is nothing to roll back to |
| AdmissionWorker.Balanced | cmd/agentctl/admission_worker.go:134-296 | in every allowed trace each dispatch of each batch is settled once, and maintenance keeps pace with batches |
| AdmissionWorker.BetweenBatches | cmd/agentctl/admission_worker.go:215-258 | between two consecutive batches all dispatches of the first are settled and maintenance runs exactly once |
| AdmissionWorker.IdleBatchWaits | cmd/agentctl/admission_worker.go:154-196 | after an outcome that dispatched nothing the next batch starts a poll interval later, unless a wake has come due at that very moment |
| AdmissionWorker.WakesAreReported | cmd/agentctl/admission_worker.go:164-168 | a pending wake is one some outcome reported and that has not come due since |
| AdmissionWorker.EarliestPending | cmd/agentctl/admission_worker.go:164-168 | and it is the earliest one reported since a wake last came due |
| AdmissionWorker.SleepsAsItMay | cmd/agentctl/admission_worker.go:154-296 | every sleep ends by the poll interval, by the next wake or scan and, while siblings run, within a quarter second; it is as long as that allows, and none at all only if there is something to do |
| AdmissionWorker.SleepsInBetween | cmd/agentctl/admission_worker.go:259-296 | between one report and the next report or batch the worker sleeps, so every report is followed by such a sleep |
| AdmissionWorker.RetriesDoNotSleep | cmd/agentctl/admission_worker.go:236-285 | after a retry, or with a report buffered, it goes on at once; a retry without evidence never gets that far |
| AdmissionWorker.Worker.Complete | cmd/agentctl/admission_worker.go:77-87 | there is room in both channels, so no send blocks, and the accounting of active dispatches is kept |
| AdmissionWorker.Worker.Fill | cmd/agentctl/admission_worker.go:70-88 | nothing starts while a report is buffered; otherwise dispatches start up to the capacity, as one batch |
| AdmissionWorker.Worker.FillReady | cmd/agentctl/admission_worker.go:90-95 | a batch starts no earlier than allowed, and afterwards something is outstanding |
| AdmissionWorker.Worker.Next | cmd/agentctl/admission_worker.go:97-108 | it is called only with something outstanding and takes exactly one report, or none when cancelled |
| AdmissionWorker.Worker.Drain | cmd/agentctl/admission_worker.go:47-61 | afterwards no dispatch runs and both channels are empty; nothing but reports is dropped, and the first error among them is the one it answers |
| AdmissionWorker.Worker.TakeReport | cmd/agentctl/admission_worker.go:191-234 | a report is booked, or every dispatch is joined before the worker returns; it returns for a failed dispatch exactly when one was received before any cancellation, and as cancelled only when it was |
| AdmissionWorker.Worker.Rest | cmd/agentctl/admission_worker.go:253-258 | maintenance runs only with nothing outstanding, after which nothing is owed |
| AdmissionWorker.Worker.Delay | cmd/agentctl/admission_worker.go:259-285 | the delay is exactly what the last outcome, the pending wake, the running siblings and the buffered reports allow |
| AdmissionWorker.Worker.Run | cmd/agentctl/admission_worker.go:134-296 | in every interleaving the accounting of active dispatches holds, every return leaves none running and has its reason on record: cancelled only when the context was and no dispatch had failed, a failed dispatch with the first error, missing retry evidence, or a failed status write; a run for one batch takes exactly one, with its maintenance, and ends that way only if no dispatch failed, drained ones included |
| AdmissionWorker.RunBoundedAdmissionWorker | cmd/agentctl/admission_worker.go:134-296 | the worker it ran has kept the allowed cadence, has nothing outstanding and ended for a reason on record; it runs exactly for a valid configuration |
| PlistReader.DocumentReadsBack | cmd/agentctl/launchagent_control.go:276-310 | every well-formed document, with noise between elements and unique keys in every dict, parses back to itself |
| PlistReader.AcceptedIsPrinted | cmd/agentctl/launchagent_control.go:276-310 | every accepted token stream is the printing of such a document |
| PlistReader.CollectMeans | cmd/agentctl/launchagent_control.go:353-421 | reading a dict entry by entry gives what its keys stand for, whatever their order |
| PlistReader.InspectsDocuments | cmd/agentctl/launchagent_control.go:276-310 | the reader accepts exactly the printings of well-formed documents, and reads them to their top-level Label, ProgramArguments and RunAtLoad |
| PlistReader.EntriesReadBack | cmd/agentctl/launchagent_control.go:353-421 | dicts read back, nested ones included |
| PlistReader.EntriesArePrinted | cmd/agentctl/launchagent_control.go:353-421 | an accepted dict is printed by entries with unique keys and values of their kind |
| PlistReader.InspectLaunchAgentPlist | cmd/agentctl/launchagent_control.go:276-310 | the reader over a stateful decoder computes exactly that parse, and terminates |
| PlistReader.SkippedTokens | cmd/agentctl/launchagent_control.go:312-344 | between elements only white space and comments are skipped, before the root directives and instructions too |
| PlistReader.Decoder.NextDocumentToken | cmd/agentctl/launchagent_control.go:312-328 | it skips exactly blanks, comments, directives and instructions |
| PlistReader.Decoder.NextContentToken | cmd/agentctl/launchagent_control.go:330-344 | it skips exactly blanks and comments |
| PlistReader.Decoder.DecodeDict | cmd/agentctl/launchagent_control.go:353-421 | the dict loop accepts, consumes and extracts exactly what the grammar says |
| PlistReader.Decoder.DecodeStringArray | cmd/agentctl/launchagent_control.go:423-446 | the array loop reads exactly an array of strings |
| PlistReader.Decoder.ConsumeValue | cmd/agentctl/launchagent_control.go:448-484 | a skipped value is exactly one value of the grammar |
| PlistReader.Decoder.DecodeTextElement | cmd/agentctl/launchagent_control.go:498-520 | the text read is the concatenation of its pieces |
| ProductionDriver.PermitsBalance | internal/application/driver.go:160-298 | acquisitions minus successful releases is 1 exactly while a permit is held, and 0 otherwise |
| ProductionDriver.HeavyActionsHold | internal/application/driver.go:198-229 | with a scheduler wired, heavy actions run only while a permit is held |
| ProductionDriver.LightActionsGiveBack | internal/application/driver.go:198-229 | in any other state it acts without a permit, or right after a refused attempt to give it back |
| ProductionDriver.NeverActsWhereItStops | internal/application/driver.go:236-253 | it never acts in a state that stops it |
| ProductionDriver.ActionsBetweenWaits | internal/application/driver.go:245-297 | without a wait in between there are never more actions than the limit |
| ProductionDriver.NeverSpins | internal/application/driver.go:180-298 | it reads the run at most once for every action and every wait, and once more |
| ProductionDriver.ReturnsTryToRelease | internal/application/driver.go:166-177 | a return with a permit still held comes right after an attempt to release it |
| ProductionDriver.EndsForAReason | internal/application/driver.go:160-298 | every end has its reason on record, with nothing but releases after it |
| ProductionDriver.Driver.Drive | internal/application/driver.go:160-298 | every drive keeps those rules, and ends exactly as its trace says; it is refused without doing anything exactly when its collaborators are incomplete |
| ProductionDriver.Driver.SecurePermit | internal/application/driver.go:198-229 | going on in a heavy state means holding a permit, and in any other having tried to give it back; without one it waits or leaves, as the rules allow |
| ProductionDriver.Driver.ReleasePermit | internal/application/driver.go:168-177 | the permit is forgotten exactly when its release succeeded |
| OwnedCleanup.SelectionIgnoresOrder | internal/application/cleanup.go:245-289 | the selected resources do not depend on the order of the rows |
| OwnedCleanup.SelectCleanupResources | internal/application/cleanup.go:245-289 | the loop selects exactly one soundly owned resource of each kind with agreeing nonces, or nothing |
| OwnedCleanup.SelectsTargets | internal/application/cleanup.go:245-289 | what is selected are the run's own four resources, in cleaning order |
| OwnedCleanup.SelectsOwned | internal/application/cleanup.go:245-289 | what is selected are rows the run owns, each the only relevant one of its kind, the three with a nonce under one and the same |
| OwnedCleanup.SelectsIff | internal/application/cleanup.go:245-289 | and exactly such rows are selected, in cleaning order |
| OwnedCleanup.DeletesFollowIntent | internal/application/cleanup.go:181-229 | every delete follows its persisted intent with no other record of the resource in between |
| OwnedCleanup.DeletesAreFinal | internal/application/cleanup.go:181-229 | no delete is issued after its settled record, and none names the base branch |
| OwnedCleanup.DeletedWasIssued | internal/application/cleanup.go:181-229 | a settled resource other than the artifact root was really deleted |
| OwnedCleanup.SyncedWasIssued | internal/application/cleanup.go:43-94 | a synchronisation on record was asked for under its intent |
| OwnedCleanup.BaseBranchNeverCompletes | internal/application/cleanup.go:196-211 | a run whose working branch is its base branch never completes |
| OwnedCleanup.CompletedIsSettled | internal/application/cleanup.go:392-438 | a completed run has its source sync settled and all four resources deleted or retained |
| OwnedCleanup.Coordinator.SyncSourceCheckout | internal/application/cleanup.go:43-94 | synchronisation follows its intent, is not repeated once settled, succeeds only when settled, and can be tried again exactly when a failed one was just put on record |
| OwnedCleanup.Coordinator.CleanupOwned | internal/application/cleanup.go:161-234 | a success settles all four resources; settled ones are left alone; without a selection it touches nothing; after a partial failure every resource is settled or on record as failed |
| OwnedCleanup.Coordinator.Cleanup | internal/application/cleanup.go:392-438 | a success completes the run, under all of these rules; every error says how far it got; in a calm run it completes whatever earlier attempts left, exactly given a selection and a working branch that is not the base branch |
| OwnedCleanup.Coordinator.Attempts | internal/application/cleanup.go:392-438 | they hold over any number of interrupted attempts |
| OwnedCleanup.CleanupAfter | internal/application/cleanup.go:392-438 | after any number of stopped attempts one calm attempt completes the run, exactly given a selection and a working branch that is not the base branch |
| ReviewPolling.Reconciler.ReconcileReviews | internal/application/delivery.go:124-186 | polls stay numbered, bounded and undecided but for the last; a decision on record is returned without observing; an answer is what is on record, or a timeout with its reason, and every observation of an answering call is on record; it waits exactly between two polls; a calm run answers, with a timeout exactly when every allowed poll is pending or the deadline had passed |
| ReviewPolling.Reconciler.Resume | internal/application/delivery.go:128-146 | a decided history answers with its decision; an undecided one with a timeout exactly at the limit or past the deadline of its first poll |
| ReviewPolling.DeadlineStands | internal/application/delivery.go:128-146 | the deadline stands from the first poll on, whatever later ones do |
| ReviewPolling.Reconciler.ReconcileRepeatedly | internal/application/delivery.go:124-186 | over any restarts, every answer after a decision repeats it |
| ReviewPolling.ReconcileAfter | internal/application/delivery.go:124-186 | after any number of stopped calls one calm call answers: the decision on record by then, or a timeout |
| Scopes.ControllerRunScopes | internal/application/authorization.go:278-295 | the loop grants exactly the scopes of valid authorities that admit the requester, and fails exactly when one of those is malformed |
| Scopes.GrantsAreValid | internal/application/authorization.go:278-295 | a grant is malformed exactly for an admitting authority whose run id or binding cannot be framed |
| Scopes.NewScopeSet | internal/application/authorization.go:435-459 | a scope set is a sorted, compacted form of its scopes; it is refused exactly for an invalid requester, no scopes or an invalid scope |
| Scopes.ValidScopeIff | internal/application/authorization.go:33-50 | a scope is valid exactly when it names something framable under a digest and, for a run, a framable target |
| Scopes.CompactScopes | internal/application/authorization.go:435-459 | compaction drops exactly the repeats that stand side by side |
| Scopes.CanonicalUnique | internal/application/authorization.go:435-459 | with one target per run id and digest, the result depends only on which scopes there are |
| Scopes.CanonicalIffOneTarget | internal/application/authorization.go:435-459 | and exactly then |
| Scopes.AllowsExactlyAdmittedRuns | internal/application/authorization.go:196-203 | a run is allowed exactly when a complete authority with that id and frozen binding names the requester as operator and allows their login |
| Scopes.AdmitsTheEntitled | internal/application/authorization.go:430-433 | an authority admits exactly those it entitles: users among its operators who log in under an allowed name |
| Scopes.AllowsOperationsOnAdmittedRuns | internal/application/authorization.go:205-221 | so is an operation on a run, given a binding that is a digest |
| Scopes.AllowsRunIff | internal/application/authorization.go:192-203 | any set allows a run exactly by its own scope or through its repository's |
| Scopes.AllowsOnlyController | internal/application/authorization.go:205-221 | beside runs such a set allows the controller's own targets and its own scope, and nothing of a repository or an onboarding |
| Scopes.SiblingsDoNotMatter | internal/application/authorization.go:278-295 | order, repeats and invalid or unauthorised rows change neither scopes nor digest |
| PanelHeights.AllocatePanelHeights | cmd/agentctl/operator.go:1821-1846 | with four rows a panel the total is the smaller of available and desired rows and the shares are max-min fair; with fewer only base heights are handed out |
| PanelHeights.DesiredIsLeast | cmd/agentctl/operator.go:1813-1819 | a panel desires the least height whose frame leaves room for all its content, and for one row at least |
| PanelHeights.FairIsUnique | cmd/agentctl/operator.go:1821-1846 | fairness and the total determine every single height |
| PanelHeights.ShareRound | cmd/agentctl/operator.go:1828-1844 | one round raises the level by one row, in order, while rows last |
| PanelHeights.BasesTake | cmd/agentctl/operator.go:1821-1827 | base heights take four rows each while they last, and at least all the rows otherwise |

## Left out

* Initialisation, baseline adoption and recovery of a runtime replacement: the configuration model starts from an adopted baseline.
* The onboarding, draft and active-run guards of an apply, and the idle-lane guard of a migration: each is one nondeterministic answer.
* Legacy generations without a configured operator, and the authority checks on paths and identities of the database.
* Foreign edits are followed until they are captured or detected; afterwards the live file is only known to be edited.
* Each unlocked read of the authority, with what is looked up in it, is one atomic read; other processes run between these reads, the locks and the transactions.
* The observation of the runtime is one step: its drift and effectiveness transactions never fall inside another critical section or on either side of another process.
* The conflict and liveness branches of the runtime observer, and every reason code, action and timestamp that no property needs.
* Opening, validating and previewing drafts as operations of their own: they appear as steps of other callers. One draft is followed at a time.
* The projection read after a draft or a migration is applied: its failure looks like a lost reply.
* Two migrations or rollbacks of one host running at the same time, and a stop inside the write of the neutral plist.
* The supervisor opposite to the one being migrated is a constant of the host.
* Status labels, cycle counts and the reported next evaluation time of the worker. Wakes are not promised to be punctual: one may be consumed without a batch.
* Retry policy, action dispatch and CI-wait evidence of the delivery loop: each is a nondeterministic answer.
* Cleanup evidence validation and the classification of failures: one nondeterministic answer per resource.
* The classification of a review snapshot: any status but a timeout.
* XML tokenisation, namespaces and entities: the reader starts from tokens, and a syntax error is a stream that does not end cleanly.
* Case folding of logins, and byte order of text outside Unicode scalar order.
* Repository, onboarding and single-run scopes, and the sorted lists of repository bindings: membership is modelled, their order is not.
* Panel contents, labels and rendering.
