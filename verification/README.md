# Patchwright verification model

Patchwright drives engineering tasks from an issue or pull request to a merged change. A local engine
keeps everything durable in one store: tasks and their timelines, approvals, preparation claims,
deliveries, monitors, verification evidence, jobs and session events. Its handlers take the store's lock
for one section at a time, and between two sections other handlers run or the process stops and reopens.
A desktop client talks to the engine over one-shot exchanges and shows session transcripts.

This project models that behaviour in Dafny 4.11 and proves what it keeps. `dafny verify dfyconfig.toml`
checks all of it.

## How it is built

- **Tables and lock sections.** `Tables`, `DeliverySpec` and `LifecycleSpec` say, as functions on the
  durable tables, what each transaction and each lock section leaves behind. `Store`, `Handlers` and
  `WorkHandlers` are the imperative counterparts: a mutable `EventStore`, and handlers that load a record,
  change it step by step and write it back. Every method is proved equal to its function.
- **The protocol.** `Protocol` is the engine as one state machine with 28 actions, one per lock section.
  The parameters of an action are its inputs, its clock readings, the outcome of the remote call, and, for
  sections that commit several transactions, how many were committed before the process stopped. A run is
  any sequence of actions from the empty store. Executors, preparations and verifications in flight are
  part of the state; a restart loses them and runs the recovery of `open`.
- **The invariant.** `Invariant` holds one predicate per group of tables; `TableProofs` says which
  single-table write keeps which predicate, `StepProofs` and `DeliveryProofs` that every action keeps all
  of them, `Reachability` that every reachable state satisfies them. `Theorems` and `Webhooks` draw the
  conclusions that matter to an operator.
- **Rules.** `DeliveryRules`, `ReconcileRules`, `MonitorRules` and `PreparationRules` say from the stored
  tables, the snapshot's items and the action's own fields when a handler goes through and what it leaves,
  in both directions, and are proved equivalent to what the handlers compute. `GateTheorems` carries the
  rule of the merge gate through whole runs.
- **Machines of their own.** `Domain` (task lifecycle), `Policy` and `Capabilities` (approvals),
  `Contract` (task contracts), `Monitoring` (pull-request monitors), `Jobs`, `Queue`, `CodexLogs` and
  `CodexPolling` (the numbered event log and the client's overlapping polls), `Transcript`, and `Exchange`
  (the race between install, attach, timeout and finish).

The protocol keeps a log of claims, results and commits, and three maps (which monitor opened a task's
gate, which key its merge claimed, which run verified it). No handler reads them; they only let the
properties speak about whole runs.

Digests are modelled as the values they were taken over, so two digests are equal exactly when those
values are. Identifiers are natural numbers, instants are nanoseconds, and clocks may run backwards.
Claims are properties of what the engine recorded, never of what GitHub did.

## Model

| member | source | states |
|---|---|---|
| `Theorems.MergeGateIsGreen` | crates/patchwright-engine/src/rpc.rs:837-931 | In every reachable state a task awaiting merge approval or merging has a stored monitor that succeeded on a green observation of exactly its expected SHAs; MergeGateSawGreen says what the snapshot showed |
| `Theorems.MergeClaimsCarryTheObservedSha` | crates/patchwright-engine/src/delivery.rs:173-218 | Every merge or enqueue claim ever made names the repository, the number and the head SHA that a succeeded monitor of its task observed |
| `Theorems.MergeClaimsFollowGreenMonitors` | crates/patchwright-engine/src/rpc.rs:570-664 | At the moment a merge or enqueue claim goes through, such a monitor is already stored |
| `Theorems.ClaimsAreJustified` | crates/patchwright-engine/src/delivery.rs:173-218 | No handler but the claim makes a delivery claim, and each claim was justified by the tables at that moment and took a key that was free or definitely failed |
| `DeliveryRules.AuthorizedExactly` | crates/patchwright-engine/src/delivery.rs:173-218 | A claim succeeds if and only if automation is on, the delivery is current, a stored uninvalidated in-window approval of the demanded class carries its fingerprint, and the key is free or failed; it leaves a pending row, and for a merge or enqueue a merging task |
| `DeliveryRules.CheckedExactly` | crates/patchwright-engine/src/delivery.rs:178-195 | The checks before the claim pass exactly when the claim is justified |
| `DeliveryRules.PreviewedExactly` | crates/patchwright-engine/src/delivery.rs:19-107 | A delivery can be previewed exactly when its task stands at the action's gate, its contract declares the capability, one stored binding fits task, contract, remote and source, and target, branch and SHAs fit action by action; its fingerprint names all of it |
| `DeliveryRules.AimedExactly` | crates/patchwright-engine/src/delivery.rs:491-573 | The target, branch and SHA checks, action by action |
| `DeliveryRules.ApprovedExactly` | crates/patchwright-engine/src/delivery.rs:141-171 | A delivery can be approved exactly when it is current and the approver is named; the approval has the demanded class and lasts ten minutes |
| `DeliveryRules.SuccessExactly` | crates/patchwright-engine/src/delivery.rs:220-309 | A success walks its task through exactly the states its action demands from where it stands, records the row and changes nothing else |
| `DeliveryRules.SuccessOutcome` | crates/patchwright-engine/src/delivery.rs:232-309 | Creating, reviewing, updating or readying a pull request leaves a delivering task in monitoring, closing completes it, a confirmed merge completes a merging task, and in every other case task and timeline are unchanged |
| `DeliveryRules.FailureExactly` | crates/patchwright-engine/src/delivery.rs:311-344 | A failed merge or enqueue returns a merging task to its gate and kills its approvals; any other failure only records the row |
| `ReconcileRules.ReconciledExactly` | crates/patchwright-engine/src/delivery.rs:356-452 | Reconciliation completes a task exactly on a merged pull request at the captured head or an issue closed as done, succeeding its ambiguous row; it returns a merging task exactly on an unmerged pull request at that head; and it goes through in no other case |
| `ReconcileRules.ItemShows` | crates/patchwright-engine/src/delivery.rs:376-396 | The item looked at is the first one with the task's number, and what it shows is read from its own fields |
| `MonitorRules.ObservedExactly` | crates/patchwright-engine/src/rpc.rs:837-931 | An observation goes through exactly for an unsettled monitor, a snapshot at most five minutes old, and a readable first pull request of its repository and number; success needs a monitored task |
| `MonitorRules.ObservationLeaves` | crates/patchwright-engine/src/rpc.rs:994-1039 | The monitor succeeds exactly on a passing, approved, mergeable pull request without conflicts at the expected SHAs; other SHAs and conflicts block, failing CI and requested or dismissed reviews ask for a repair while the budget lasts, the rest waits; approvals die and the gate opens accordingly |
| `MonitorRules.ReadingIsExact` | crates/patchwright-engine/src/rpc.rs:994-1039 | Each word and flag of an item is read as the engine knows it, and unknown words are refused |
| `MonitorRules.StartedExactly` | crates/patchwright-engine/src/rpc.rs:752-815 | A monitor starts exactly for a monitored task, its contract and binding, a recent snapshot, and its own captured pull request or one on its prepared branch |
| `MonitorRules.StartLeaves` | crates/patchwright-engine/src/monitoring.rs:93-132 | A started monitor is pending, due at the snapshot's time, and names exactly what was requested |
| `GateTheorems.MergeGateSawGreen` | crates/patchwright-engine/src/rpc.rs:837-931 | In every run, a task at the merge gate owes it to a step that observed its monitor on a pull request which the stored snapshot showed passing, approved, mergeable and without conflicts at the monitor's SHAs |
| `GateTheorems.SuccessSawGreen` | crates/patchwright-engine/src/rpc.rs:837-931 | Every monitor that ever succeeded did so at such a step |
| `PreparationRules.PreparedExactly` | crates/patchwright-engine/src/preparation.rs:43-134 | A preparation can be previewed exactly of a waiting task with its contract, binding, SHA and repository; head comes before base, the managed clone before the checkout, and the fingerprint covers everything |
| `PreparationRules.AuthorizedExactly` | crates/patchwright-engine/src/preparation.rs:158-194 | A preparation is authorized exactly with automation on, a current preview, a live in-window approval of it that was never used, and no active preparation of the task |
| `PreparationRules.PreparationsAreDisjoint` | crates/patchwright-engine/src/preparation.rs:78-83 | Two tasks are never prepared on one branch, nor in one worktree under the same root |
| `Theorems.MergeApprovalsAreSpentOnce` | crates/patchwright-engine/src/store.rs:870-906 | Over any run with retries, ambiguous results, reconciliations and restarts, no two merge claims used the same approval |
| `Theorems.ApprovalsServeOneKey` | crates/patchwright-core/src/github_actions.rs:809-832 | An approval of any class serves one task and one idempotency key, although the key also digests the installation, which the fingerprint leaves out |
| `Theorems.FailedMergesNeedFreshApproval` | crates/patchwright-engine/src/delivery.rs:311-344 | After a definite merge failure the task is at its gate with no live approval left, unless reconciliation had already completed it |
| `Theorems.FailureBetweenClaims` | crates/patchwright-engine/src/store.rs:750-801 | Between two claims of one key a definite failure was recorded |
| `Theorems.SuccessIsNeverOverwritten` | crates/patchwright-engine/src/store.rs:803-868 | A recorded success is final: its key is never claimed or recorded again and its row keeps that result, although the completion update is unconditional |
| `Theorems.ExecutorsOwnTheirRows` | crates/patchwright-engine/src/rpc.rs:600-664 | Every executor in flight owns a pending row, and no two share a key |
| `Theorems.OneUnresolvedDeliveryPerTask` | crates/patchwright-engine/src/store.rs:750-834 | A task has at most one pending or ambiguous row, and only while it merges or after it completed |
| `Theorems.MergingTasksHoldARow` | crates/patchwright-engine/src/store.rs:750-801 | A merging task always has a merge row of its own that has not failed |
| `Theorems.ReconciledRowIsUnique` | crates/patchwright-engine/src/store.rs:821-834 | The newest-first lookup of an ambiguous row has only one possible answer |
| `Theorems.ReconciliationSettlesTheTask` | crates/patchwright-engine/src/delivery.rs:356-452 | In every reachable state a reconciliation that goes through completes the task if the snapshot shows it done and otherwise returns it to its gate with no live approval; an ambiguous row stays behind if and only if the task had completed before |
| `Theorems.PreparationLosesNoUpdate` | crates/patchwright-engine/src/rpc.rs:1797-1949 | The unguarded save of a preparation writes a legal next version of the very task that is stored, whatever ran since it read its copy |
| `Theorems.PreparationApprovalsAreSpentOnce` | crates/patchwright-engine/src/store.rs:577-629 | An approval claims a preparation at most once ever, restarts included |
| `Theorems.OneActivePreparationPerTask` | crates/patchwright-engine/src/store.rs:1753-1767 | A task has at most one active preparation claim |
| `Theorems.PreparationOutcomesAreExact` | crates/patchwright-engine/src/store.rs:577-629 | Claimed means a new active claim and nothing else written; already claimed means a claim row exists; task in progress means another approval holds an active claim of this task |
| `Theorems.ReopeningEndsActiveClaims` | crates/patchwright-engine/src/store.rs:650-658 | Reopening leaves no active claim, frees no used approval, changes no finished claim, and is idempotent |
| `Theorems.TimelineRefines` | crates/patchwright-engine/src/store.rs:169-226 | The task row is the last entry of its timeline, and the timeline walks legal edges from Discovered |
| `Theorems.CompletedVisitsMilestones` | crates/patchwright-core/src/domain.rs:71-90 | A completed task has visited Preparing, Verifying, AwaitingDeliveryApproval and Monitoring in that order |
| `Theorems.VerifiedTasksHaveFullEvidence` | crates/patchwright-engine/src/verification.rs:51-128 | A task past verification has one run whose evidence is numbered 1..n and holds one success for each command of its contract, in order |
| `Theorems.EvidenceIsAPrefix` | crates/patchwright-engine/src/verification.rs:130-211 | Evidence of any run is a contiguous prefix in which only the last entry may have failed |
| `Theorems.AtMostOneVerificationCommits` | crates/patchwright-engine/src/verification.rs:101-127 | However many verifications of a task run at once, at most one commits |
| `Reachability.StepKeepsInv` | crates/patchwright-engine/src/rpc.rs:570-664 | Every lock section of every modelled handler, and a restart, keeps the global invariant over tasks, timelines, contracts, monitors, gates, deliveries, executors, approvals, claims, runs and evidence |
| `Reachability.RunKeepsInv` | crates/patchwright-engine/src/store.rs:39-55 | The invariant holds after every run from the empty store |
| `DeliveryProofs.ClaimDeliveryKeepsInv` | crates/patchwright-engine/src/delivery.rs:173-218 | A delivery claim, with or without the task's move to merging, keeps the invariant |
| `DeliveryProofs.SucceedDeliveryKeepsInv` | crates/patchwright-engine/src/delivery.rs:220-309 | Recording a success and walking the task keeps the invariant |
| `DeliveryProofs.FailDeliveryKeepsInv` | crates/patchwright-engine/src/delivery.rs:311-344 | Recording a failure, and for a merge the return to the gate, keeps the invariant |
| `DeliveryProofs.LoseDeliveryKeepsInv` | crates/patchwright-engine/src/delivery.rs:346-354 | Recording an ambiguous result keeps the invariant |
| `DeliveryProofs.ReconcileKeepsInv` | crates/patchwright-engine/src/rpc.rs:2765-2854 | Storing a snapshot and reconciling from it keeps the invariant |
| `StepProofs.CommitPlanKeepsInv` | crates/patchwright-engine/src/rpc.rs:1553-1649 | Committing a plan, cut off after any of its four transactions, keeps the invariant |
| `StepProofs.ClaimPreparationKeepsInv` | crates/patchwright-engine/src/preparation.rs:158-194 | Claiming a preparation keeps the invariant |
| `StepProofs.SavedCopyIsCurrent` | crates/patchwright-engine/src/rpc.rs:1839-1949 | While a preparation has read its task, the stored task equals the copy and awaits its preparation approval |
| `StepProofs.SavePreparationKeepsInv` | crates/patchwright-engine/src/rpc.rs:1916-1949 | The final save of a preparation keeps the invariant |
| `StepProofs.ReleasePreparationKeepsInv` | crates/patchwright-engine/src/rpc.rs:1777-1795 | Completing a preparation claim keeps the invariant |
| `StepProofs.BeginVerificationKeepsInv` | crates/patchwright-engine/src/verification.rs:55-93 | Entering verification, cut off after any of its transactions, keeps the invariant |
| `StepProofs.RunCommandKeepsInv` | crates/patchwright-engine/src/verification.rs:130-211 | One verification command and its evidence keep the invariant |
| `StepProofs.CommitVerificationKeepsInv` | crates/patchwright-engine/src/verification.rs:101-127 | Committing a verification, cut off after either transaction, keeps the invariant |
| `StepProofs.StartMonitorKeepsInv` | crates/patchwright-engine/src/rpc.rs:752-815 | A monitor starts only for its task's own pull request, which keeps the invariant |
| `StepProofs.ObserveMonitorKeepsInv` | crates/patchwright-engine/src/rpc.rs:837-931 | An observation, with its invalidation, its save and the opening of the gate, keeps the invariant |
| `StepProofs.RestartKeepsInv` | crates/patchwright-engine/src/store.rs:39-55 | Losing every handler in flight and reopening keeps the invariant |
| `Webhooks.RepeatsChangeNothing` | crates/patchwright-engine/src/store.rs:66-157 | Any sequence of deliveries with repeats leaves what its first arrivals alone leave |
| `Webhooks.FirstArrivalsAreDistinct` | crates/patchwright-engine/src/store.rs:66-97 | The first arrivals are exactly the new delivery ids, each once |
| `Webhooks.WebhookWakesExactly` | crates/patchwright-engine/src/store.rs:99-151 | A new delivery reschedules exactly the pending monitors of its repository and number, changes no monitor's state and leaves columns equal to payloads |
| `Store.EventStore.Open` | crates/patchwright-engine/src/store.rs:39-55 | Opening yields the stored tables with active preparation claims interrupted |
| `Store.EventStore.RecoverPreparations` | crates/patchwright-engine/src/store.rs:650-658 | The recovery loop equals the recovery that ReopeningEndsActiveClaims describes |
| `Store.EventStore.PutTask` | crates/patchwright-engine/src/store.rs:169-183 | A save upserts the row and appends to the timeline |
| `Store.EventStore.SaveTaskEvents` | crates/patchwright-engine/src/store.rs:908-930 | The loop saves all versions in order; the whole new tables are stated |
| `Store.EventStore.CreateConverted` | crates/patchwright-engine/src/store.rs:698-735 | The first conversion of a source creates its task, later ones return it; every error leaves the tables alone |
| `Store.EventStore.PutApproval` | crates/patchwright-engine/src/store.rs:530-546 | An upsert of an approval never revives an invalidated row |
| `Store.EventStore.LoadApproval` | crates/patchwright-engine/src/store.rs:548-554 | Only an uninvalidated approval is found |
| `Store.EventStore.InvalidateApprovals` | crates/patchwright-engine/src/store.rs:556-564 | Exactly the task's live approvals are marked, and they are counted |
| `Store.EventStore.ClaimPreparation` | crates/patchwright-engine/src/store.rs:577-629 | Insert-or-ignore and the two follow-up queries yield exactly the four outcomes and the one possible write |
| `Store.EventStore.CompletePreparation` | crates/patchwright-engine/src/store.rs:631-648 | Only an active claim can be completed |
| `Store.EventStore.ClaimDeliveryWithTaskEvent` | crates/patchwright-engine/src/store.rs:750-801 | The claim succeeds exactly for a free or failed key, and only then writes the row and the task event |
| `Store.EventStore.CompleteDelivery` | crates/patchwright-engine/src/store.rs:803-810 | A definite result overwrites whatever the row holds; only a missing row is an error |
| `Store.EventStore.MarkDeliveryAmbiguous` | crates/patchwright-engine/src/store.rs:812-819 | An ambiguous result reopens the row's completion |
| `Store.EventStore.AmbiguousDeliveryForTask` | crates/patchwright-engine/src/store.rs:821-834 | The scan returns a newest ambiguous row of the task, or none exactly when there is none |
| `Store.EventStore.CompleteDeliveryWithTaskEvents` | crates/patchwright-engine/src/store.rs:836-868 | Result and task versions are written together or not at all |
| `Store.EventStore.CompleteFailedMergeDelivery` | crates/patchwright-engine/src/store.rs:870-906 | The failed row, the dead approvals and the task version are written together or not at all |
| `Store.EventStore.SaveVerificationEvidence` | crates/patchwright-engine/src/store.rs:237-252 | Evidence rows are inserted once and never replaced |
| `Store.EventStore.PutMonitor` | crates/patchwright-engine/src/store.rs:1256-1276 | An upsert rewrites state, schedule and payload but no identity column |
| `Store.EventStore.PutMonitorWithTaskEvent` | crates/patchwright-engine/src/store.rs:1278-1325 | Monitor and task are saved together, and only if they belong together |
| `Store.EventStore.IngestGithubWebhook` | crates/patchwright-engine/src/store.rs:66-157 | A known delivery changes nothing; a new one wakes and counts exactly the matching pending monitors |
| `Handlers.ApproveDelivery` | crates/patchwright-engine/src/delivery.rs:141-171 | An approval is stored exactly for a current delivery and a named approver, in the class and window that policy accepts |
| `Handlers.CheckExecution` | crates/patchwright-engine/src/delivery.rs:173-195 | The checks pass exactly for a justified claim, and report the first failing check otherwise |
| `Handlers.AuthorizeExecution` | crates/patchwright-engine/src/delivery.rs:173-218 | The handler claims exactly a justified delivery whose key is free or failed, together with the move to merging, and changes nothing on error |
| `Handlers.Walk` | crates/patchwright-engine/src/delivery.rs:290-305 | Walking a lifecycle collects every version on the way and each step is legal |
| `Handlers.LifecycleIsSuccessPath` | crates/patchwright-engine/src/delivery.rs:246-290 | The tail of the lifecycle table that starts at the task's state is the path by which a success moves it, which SuccessExactly gives action by action |
| `Handlers.CompleteSuccessfulDelivery` | crates/patchwright-engine/src/delivery.rs:220-309 | The row is completed and the task walked in one transaction with the effect of SuccessExactly; a missing row or task changes nothing |
| `Handlers.CompleteFailedDelivery` | crates/patchwright-engine/src/delivery.rs:311-344 | A failed merge returns its task to the gate, any other failure only completes the row |
| `Handlers.RecordAmbiguousDelivery` | crates/patchwright-engine/src/delivery.rs:346-354 | Only a claimed key can become ambiguous |
| `Handlers.CompletionEvents` | crates/patchwright-engine/src/delivery.rs:454-485 | Every version between the task's state and Completed is produced, or an error when there is no such path |
| `Handlers.RemoteItem` | crates/patchwright-engine/src/delivery.rs:361-396 | The first item with the task's number is found, and a pull request only at its captured head |
| `Handlers.ReconcileCompletedTask` | crates/patchwright-engine/src/delivery.rs:356-452 | The handler goes through exactly when the snapshot decides the task, with the effect of ReconciledExactly on the row its lookup returns, and changes nothing on error |
| `WorkHandlers.CommitPlan` | crates/patchwright-engine/src/rpc.rs:1609-1649 | A plan is committed only onto the task that was read, as one contract and three task versions |
| `WorkHandlers.ApprovePreparation` | crates/patchwright-engine/src/preparation.rs:136-156 | A preparation approval is stored exactly for a fresh preview and a named approver |
| `WorkHandlers.AuthorizePreparation` | crates/patchwright-engine/src/preparation.rs:158-194 | A preparation is authorized exactly when it may start, and only its claim is written |
| `WorkHandlers.SavePrepared` | crates/patchwright-engine/src/rpc.rs:1916-1949 | The copy read earlier is moved to Preparing and saved with its checkpoint |
| `WorkHandlers.BeginVerification` | crates/patchwright-engine/src/verification.rs:55-93 | The task enters Verifying in saved stages; a run starts only in that state with a non-empty plan |
| `WorkHandlers.RunCommands` | crates/patchwright-engine/src/verification.rs:130-211 | Evidence is saved for every command up to and including the first failure, and nothing else is written |
| `WorkHandlers.EvidenceRows` | crates/patchwright-engine/src/verification.rs:130-211 | Those writes add exactly the rows numbered 1..n of the run, each with its own command and outcome |
| `WorkHandlers.CommitVerification` | crates/patchwright-engine/src/verification.rs:101-127 | A verification commits exactly when the stored task is still the one it started from |
| `WorkHandlers.StartMonitor` | crates/patchwright-engine/src/rpc.rs:722-815 | A monitor is stored exactly for a startable request |
| `WorkHandlers.FindPullRequest` | crates/patchwright-engine/src/rpc.rs:792-802 | The first matching pull request of the snapshot is found |
| `WorkHandlers.ObserveMonitor` | crates/patchwright-engine/src/rpc.rs:837-931 | The handler goes through exactly when the stored snapshot lets the monitor be observed, and leaves what that pull request demands: blocked and repair outcomes kill approvals, success opens the gate in one transaction |
| `WorkHandlers.WakeMonitor` | crates/patchwright-engine/src/rpc.rs:1053-1080 | A wake is saved exactly when it changed the monitor |
| `WorkHandlers.CancelMonitor` | crates/patchwright-engine/src/rpc.rs:1053-1080 | A cancellation is saved exactly when it changed the monitor |
| `Contract.TryFromDraft` | crates/patchwright-core/src/contract.rs:682-754 | A contract comes out exactly for acceptable drafts, pull-request SHA binding and distinct dependencies included, with trimmed texts and the draft's own identities |
| `Domain.TaskRecord.Transition` | crates/patchwright-core/src/domain.rs:193-208 | Exactly the legal edges succeed; an illegal one changes nothing and names both states |
| `Domain.TaskRecord.Interrupt` | crates/patchwright-core/src/domain.rs:210-243 | An interruption records the state to resume; terminal and interrupted tasks and empty reasons are refused |
| `Domain.TaskRecord.Resume` | crates/patchwright-core/src/domain.rs:245-262 | Exactly a recorded pause or block can be resumed |
| `Domain.InterruptResumeRoundTrip` | crates/patchwright-core/src/domain.rs:210-262 | Pausing or blocking can always be undone and undoing restores all but the clock; failing and cancelling cannot |
| `Capabilities.RequiredClassIsTheOnlySupportingClass` | crates/patchwright-core/src/policy.rs:388-443 | The class policy requires is the only class that can be granted for a capability |
| `Policy.RemoteCapabilityAllowedExactly` | crates/patchwright-core/src/policy.rs:341-386 | A remote capability is allowed if and only if automation is on and the approval is valid for that exact fingerprint now |
| `Policy.LocalCapabilityDecisions` | crates/patchwright-core/src/policy.rs:341-386 | Bypass is always denied, the kill switch leaves reading only, worktree work needs no approval, and network, installation and workflow changes need a local approval of that exact fingerprint |
| `Contract.TrimTakesBlanks` | crates/patchwright-core/src/contract.rs:686-693 | Trimming takes all blanks off both ends and nothing else |
| `Monitoring.MonitorRecord.Observe` | crates/patchwright-engine/src/monitoring.rs:139-213 | An observation counts, is stored and is judged in the order transient trouble, access, identity, mergeability, CI and review |
| `Monitoring.MonitorRecord.Wake` | crates/patchwright-engine/src/monitoring.rs:216-224 | Only a pending monitor is rescheduled |
| `Monitoring.MonitorRecord.Cancel` | crates/patchwright-engine/src/monitoring.rs:227-239 | Only an unfinished monitor is cancelled |
| `Monitoring.MonitorRecord.Schedule` | crates/patchwright-engine/src/monitoring.rs:241-250 | The next attempt is the bounded backoff plus jitter away |
| `Monitoring.CallKeepsSound` | crates/patchwright-engine/src/monitoring.rs:139-239 | Every call keeps the budget, the schedule and the evidence of success, and leaves terminal monitors alone |
| `Monitoring.MonitorLifetime` | crates/patchwright-engine/src/monitoring.rs:139-265 | Over every run the repair outcomes number exactly the repair iterations and never exceed the budget, an attempt is scheduled exactly while pending, and success is backed by green evidence |
| `Monitoring.TerminalStatesAbsorb` | crates/patchwright-engine/src/monitoring.rs:139-239 | A terminal monitor never changes again |
| `Monitoring.DelayIsBounded` | crates/patchwright-engine/src/monitoring.rs:241-250 | Every delay lies within 30 and 910 seconds, for every attempt count including the saturated one |
| `Monitoring.DelayDoubles` | crates/patchwright-engine/src/monitoring.rs:241-250 | The backoff is 30 seconds, doubles with every attempt and stays at 900, plus the jitter of identity and attempt |
| `Monitoring.XorIsBitwise` | crates/patchwright-engine/src/monitoring.rs:243-244 | The jitter mixes identity and attempt by exclusive or |
| `Monitoring.ObservedState` | crates/patchwright-engine/src/monitoring.rs:139-213 | Which trouble waits, blocks, asks for a repair or succeeds, from the observation's own fields |
| `Monitoring.ObservationOutcome` | crates/patchwright-engine/src/monitoring.rs:139-213 | Approvals are invalidated exactly on blocked and repair outcomes, and success means exactly green evidence for the expected SHAs with no transient trouble |
| `CodexLogs.CodexLog.Append` | crates/patchwright-engine/src/store.rs:273-333 | A well-formed event gets the next number; the session's last sequence equals the log length; numbers stay gapless |
| `CodexLogs.CodexLog.Events` | crates/patchwright-engine/src/rpc.rs:2059-2096 | A page is the events after the cursor in order, cut to the limit; bad limits are refused |
| `CodexLogs.AppendKeepsNumbers` | crates/patchwright-engine/src/store.rs:294-298 | Numbering by maximum plus one keeps every task's log numbered 1..n |
| `CodexLogs.PageIsStretch` | crates/patchwright-engine/src/store.rs:343-353 | A page is the stretch of the log right after the cursor, as long as limit and log allow |
| `CodexPolling.ClientStore.ReadCursor` | Sources/PatchwrightCore/WorkspaceStore.swift:518-521 | A refresh asks from the last sequence it shows, or from zero |
| `CodexPolling.ClientStore.Merge` | Sources/PatchwrightCore/WorkspaceStore.swift:518-538 | A page is merged into what is shown now, without the sequences already seen, and sorted |
| `CodexPolling.MergeExtendsPrefix` | Sources/PatchwrightCore/WorkspaceStore.swift:518-538 | Merging a stretch that starts inside a shown prefix extends that prefix, whatever ran in between |
| `CodexPolling.ClientShowsAPrefix` | Sources/PatchwrightCore/WorkspaceStore.swift:518-538 | Under every interleaving of appends and overlapping refreshes the client shows exactly the first m events of a gapless log |
| `CodexPolling.ShownOnlyGrows` | Sources/PatchwrightCore/WorkspaceStore.swift:518-538 | What is shown only grows at its end |
| `Transcript.Build` | Sources/PatchwrightCore/CodexModels.swift:205-234 | The loop with its index map builds the declared transcript of the sorted events, and the cursor is the highest sequence |
| `Transcript.ShownAs` | Sources/PatchwrightCore/CodexModels.swift:236-262 | Which events are shown, as what, and which of them stream into which item |
| `Transcript.TranscriptIsUnique` | Sources/PatchwrightCore/CodexModels.swift:205-234 | The declaration leaves no freedom |
| `Transcript.NothingLostOrRepeated` | Sources/PatchwrightCore/CodexModels.swift:205-234 | The items hold exactly as much text as the shown events said |
| `Transcript.EveryEventHasOneItem` | Sources/PatchwrightCore/CodexModels.swift:242-262 | Every shown event speaks in exactly one item, which starts at or before it |
| `Transcript.LaterEventsExtend` | Sources/PatchwrightCore/CodexModels.swift:205-234 | Later events only extend existing items at their end or add items at the end |
| `Exchange.EngineExchangeOperation.Install` | Sources/PatchwrightCore/EngineClient.swift:422-431 | An exchange that is already finished is resumed at once, any other keeps its continuation |
| `Exchange.EngineExchangeOperation.Attach` | Sources/PatchwrightCore/EngineClient.swift:433-443 | A finished exchange refuses and cancels the connection |
| `Exchange.EngineExchangeOperation.AttachTimeoutTask` | Sources/PatchwrightCore/EngineClient.swift:445-454 | A finished exchange cancels the timeout task |
| `Exchange.EngineExchangeOperation.Finish` | Sources/PatchwrightCore/EngineClient.swift:456-476 | The first finish takes everything out and owes its effects; later ones owe nothing |
| `Exchange.FinishOwes` | Sources/PatchwrightCore/EngineClient.swift:456-476 | The first finish owes each party exactly one effect |
| `Exchange.ResumesAtMostOnce` | Sources/PatchwrightCore/EngineClient.swift:414-477 | Under every interleaving the continuation is resumed at most once, with the first finish's result |
| `Exchange.FinishedExchangesSettle` | Sources/PatchwrightCore/EngineClient.swift:414-477 | Once nothing is owed, a finished exchange has resumed its continuation and cancelled everything attached, exactly once each |
| `Queue.ValidateCandidates` | crates/patchwright-core/src/queue.rs:90-109 | Exactly acceptable candidates with distinct identities pass |
| `Queue.OverlappingPath` | crates/patchwright-core/src/queue.rs:267-278 | A shared path is found exactly when another pull request of the repository changes one |
| `Queue.AssessCandidate` | crates/patchwright-core/src/queue.rs:111-215 | The step-by-step score and tier are the rank against the whole set; each in-queue dependency is named |
| `Queue.AssessQueue` | crates/patchwright-core/src/queue.rs:66-88 | Valid candidates are ranked against the whole set, each once, better tiers and higher scores first |
| `Queue.AssessmentIsOrdered` | crates/patchwright-core/src/queue.rs:79-86 | Better tiers come first, within a tier higher scores, and on equal scores repositories and then numbers ascend |
| `Queue.DecidedFromFields` | crates/patchwright-core/src/queue.rs:111-256 | Each candidate's tier and score from its own fields: base, pin, suiting workflow, overlap and 500 less per queued dependency |
| `Queue.SecurityIsLabelled` | crates/patchwright-core/src/queue.rs:124-129 | Security labels are recognised whatever their case |
| `Queue.PresetIsExact` | crates/patchwright-core/src/queue.rs:218-248 | What each workflow looks for |
| `Queue.OrderIsInputIndependent` | crates/patchwright-core/src/queue.rs:66-88 | Permuted candidates give the same repository, number, tier and score at every position |
| `Queue.EachCandidateOnce` | crates/patchwright-core/src/queue.rs:66-88 | Every candidate has exactly one decision |
| `Queue.DependentsComeLast` | crates/patchwright-core/src/queue.rs:192-198 | A candidate with an in-queue dependency comes after everything that is not blocked |
| `Queue.RankBounds` | crates/patchwright-core/src/queue.rs:111-215 | A candidate is blocked exactly for an in-queue dependency or an unknown state that is no security change, and its score apart from manual priority stays within -500 per dependency and 3550 |
| `Jobs.JobStore.CreateJob` | crates/patchwright-engine/src/store.rs:953-992 | A new job gets its row and first event; a duplicate id changes nothing |
| `Jobs.JobStore.TransitionJob` | crates/patchwright-engine/src/store.rs:994-1061 | A transition wins exactly from the expected state; a lost race changes nothing |
| `Jobs.JobStore.RecoverInterruptedJobs` | crates/patchwright-engine/src/store.rs:1107-1138 | The recovery loop interrupts exactly the running and cancelling jobs |
| `Jobs.JobLogsAreLegal` | crates/patchwright-engine/src/store.rs:953-1061 | Generation is event count minus one, events walk legal edges from Queued, and the row repeats the last event |
| `Jobs.JobsMoveLegally` | crates/patchwright-engine/src/jobs.rs:62-81 | Over every run a job stays as it is or makes one of the listed moves, and an ended job is never touched again |
| `Jobs.CheckpointIsTheLastSupplied` | crates/patchwright-engine/src/store.rs:1022-1030 | The stored checkpoint is the last one a winning transition supplied |
| `Jobs.RecoveryIsComplete` | crates/patchwright-engine/src/store.rs:1107-1138 | Recovery leaves no job running or cancelling, touches no other, and is idempotent |

## Left out

- Task writes by the runtime session service (pausing, cancelling, resuming and entering implementation
  under a session): the protocol takes the modelled handlers as the only writers of tasks. Interruption
  and resumption are modelled on one task, in `Domain`.
- HTTP, GraphQL, git, process spawning, sockets, file permissions, the operating-system lease and SQLite
  itself: transactions are atomic, remote calls return an arbitrary outcome, one engine is alive.
- SHA-256, JSON encoding and decoding: payloads are values. Validators of references, bodies, URLs,
  SHA shapes in contracts and fingerprint fields are not part of this model; previews, actions and
  bindings are taken as already validated.
- Liveness: a stopped process can leave a delivery row pending for ever, and a successful enqueue leaves
  its task merging with a succeeded row. Nothing is claimed about when either ends.
- Summary texts, task checkpoints as a table, queue decision digests and the texts of error messages.
- Unicode whitespace: trimming and repository names know blanks, tabs and line ends only.
- Migrations, instruction conflicts, the separate sorting helpers, settings, views, release scripts and
  key handling: easy members, user interface or input and output.
- Synchronization jobs as handlers; their durable log is modelled in `Jobs`.
- Protocol.Apply: one lock section reads the clock once, except where authorization of a preparation
  reads it twice.
- Store.EventStore.ClaimPreparation: compares expiry with exact instants, where the source compares
  Julian day numbers of millisecond precision.
- Store.EventStore.IngestGithubWebhook: the shape check of a forwarded delivery is not part of this model.
- Contract.TryFromDraft: does not model the SHA and digest shape checks, sensitive paths or risk, and does
  not say which of several errors is reported.
- WorkHandlers.RunCommands: a command's outcome is a parameter; how an executable is resolved and run, and
  the kinds of failure, are not modelled.
- CodexLogs.CodexLog.Append: the checks of kind, summary, content and identities are one flag, and session
  rows are written by appends only.
- CodexPolling.ClientStore.Merge: status, approvals and the refresh of tasks after a finished turn are left out.
- Exchange.EngineExchangeOperation.Finish: detaching the connection's state handler is not modelled beside
  its cancellation.
- Queue.AssessQueue: scores are unbounded integers, so overflow of an extreme manual priority is not
  modelled; reasons are values instead of texts.
- Jobs.JobStore.TransitionJob: the check of the summary text is one flag.
- Jobs.JobStore.RecoverInterruptedJobs: all jobs of one recovery carry the same clock reading.
