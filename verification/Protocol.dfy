/** The engine as one state machine. Each action is one lock section of one handler, with its inputs,
    clock readings and remote outcomes as parameters; between any two actions other handlers may run,
    and the process may stop and reopen. A run is a sequence of actions from the empty store. */
module Protocol {
  import opened Base
  import opened Sources
  import opened Domain
  import opened Contract
  import opened Capabilities
  import opened GitHubActions
  import opened Policy
  import opened Tables
  import D = DeliverySpec
  import L = LifecycleSpec
  import M = Monitoring

  /** A preparation between its claim and the completion of its claim. */
  datatype PrepPhase = Authorized | Read(task: Task) | Saved | Abandoned
  datatype Prep = Prep(approvalId: ApprovalId, preview: L.PreparationPreview, phase: PrepPhase)

  /** A delivery whose remote call is under way with the lock released. */
  datatype Exec = Exec(key: Key, preview: D.DeliveryPreview)

  /** A verification run: the task it read, the commands of its contract, and the outcomes so far. */
  datatype VerificationRun = VerificationRun(task: Task, commands: seq<VerificationCommand>, outcomes: seq<bool>)

  datatype Event =
    | DeliveryClaimed(key: Key, taskId: TaskId, approvalId: ApprovalId)
    | DeliveryRecorded(key: Key, result: DeliveryResult)
    | PreparationClaimed(approvalId: ApprovalId, taskId: TaskId)
    | VerificationCommitted(taskId: TaskId, runId: RunId)

  /** The tables, the handlers in flight, and a history no handler reads. */
  datatype Sys = Sys(
    db: Db,
    plans: map<HandlerId, L.PlanJob>,
    preps: map<HandlerId, Prep>,
    execs: map<HandlerId, Exec>,
    live: set<RunId>,
    runs: map<RunId, VerificationRun>,
    log: seq<Event>,
    mergeGate: map<TaskId, MonitorId>,
    mergeClaim: map<TaskId, Key>,
    passed: map<TaskId, RunId>)

  const INITIAL: Sys := Sys(EMPTY, map[], map[], map[], {}, map[], [], map[], map[], map[])

  datatype Action =
    | CreateTask(taskId: TaskId, title: string, repositoryPath: string, now: Instant)
    | ConvertTask(taskId: TaskId, title: string, repositoryPath: string, source: TaskSource, bindingId: BindingId,
                  now: Instant)
    | BindRepository(binding: RepositoryBinding)
    | SyncSnapshot(snapshot: Snapshot, now: Instant)
    | BeginPlan(handler: HandlerId, taskId: TaskId)
    | CommitPlan(handler: HandlerId, draft: TaskContractDraft, now: Instant, written: nat)
    | ApprovePreparation(preparation: L.PreparationPreview, approvalId: ApprovalId, approvedBy: string, now: Instant)
    | ClaimPreparation(handler: HandlerId, preparation: L.PreparationPreview, approvalId: ApprovalId,
                       automationDisabled: bool, now: Instant, claimedAt: Instant)
    | ReadPreparation(handler: HandlerId)
    | AbandonPreparation(handler: HandlerId)
    | SavePreparation(handler: HandlerId, checkpointId: CheckpointId, now: Instant)
    | ReleasePreparation(handler: HandlerId)
    | BeginVerification(runId: RunId, taskId: TaskId, now: Instant, written: nat)
    | RunVerificationCommand(runId: RunId, success: bool)
    | AbandonVerification(runId: RunId)
    | CommitVerification(runId: RunId, checkpointId: CheckpointId, now: Instant, written: nat)
    | ApproveDelivery(delivery: D.DeliveryPreview, approvalId: ApprovalId, approvedBy: string, now: Instant,
                      worktreeHead: Option<Sha>)
    | ClaimDelivery(handler: HandlerId, delivery: D.DeliveryPreview, approvalId: ApprovalId, automationDisabled: bool,
                    now: Instant, worktreeHead: Option<Sha>)
    | SucceedDelivery(handler: HandlerId, merged: bool, now: Instant)
    | FailDelivery(handler: HandlerId, now: Instant)
    | LoseDelivery(handler: HandlerId)
    | Reconcile(taskId: TaskId, snapshot: Snapshot, ambiguous: Option<Key>, now: Instant)
    | StartMonitor(monitorId: MonitorId, request: L.MonitorStartRequest, now: Instant)
    | ObserveMonitor(monitorId: MonitorId, now: Instant, saved: bool)
    | WakeMonitor(monitorId: MonitorId, now: Instant)
    | CancelMonitor(monitorId: MonitorId, now: Instant)
    | IngestWebhook(webhook: Webhook, now: Instant)
    | Restart
  {
    predicate IsTaskAction() {
      CreateTask? || ConvertTask? || BindRepository? || SyncSnapshot? || BeginPlan? || CommitPlan?
    }

    predicate IsPreparationAction() {
      || ApprovePreparation? || ClaimPreparation? || ReadPreparation?
      || AbandonPreparation? || SavePreparation? || ReleasePreparation?
    }

    predicate IsVerificationAction() {
      BeginVerification? || RunVerificationCommand? || AbandonVerification? || CommitVerification?
    }

    predicate IsDeliveryAction() {
      || ApproveDelivery? || ClaimDelivery? || SucceedDelivery?
      || FailDelivery? || LoseDelivery? || Reconcile?
    }
  }

  // ----- Creation, binding and synchronization -----

  function NewTask(id: TaskId, title: string, repositoryPath: string, source: TaskSource, bindingId: Option<BindingId>,
                   now: Instant): Task
  {
    Task(id, Trim(title), repositoryPath, Discovered, now, now, None, source, bindingId, 1, None)
  }

  predicate CanCreate(db: Db, id: TaskId, title: string, repositoryPath: string) {
    id !in db.tasks && Trim(title) != "" && "/" <= repositoryPath
  }

  function KeyOfSource(source: TaskSource): SourceKey
    requires !source.LocalRequest?
  {
    SourceKey(source.repositoryId, if source.GitHubIssue? then Issue else PullRequest, source.number)
  }

  function DoCreateTask(s: Sys, id: TaskId, title: string, repositoryPath: string, now: Instant): Sys {
    if !CanCreate(s.db, id, title, repositoryPath) then s
    else s.(db := SaveTask(s.db, NewTask(id, title, repositoryPath, LocalRequest, None, now)))
  }

  function DoConvertTask(s: Sys, id: TaskId, title: string, repositoryPath: string, source: TaskSource,
                         bindingId: BindingId, now: Instant): Sys
  {
    if !CanCreate(s.db, id, title, repositoryPath) || source.LocalRequest? || bindingId !in s.db.bindings then s
    else s.(db := CreateConvertedTask(s.db, NewTask(id, title, repositoryPath, source, Some(bindingId), now),
                                      KeyOfSource(source)))
  }

  predicate CanBind(db: Db, binding: RepositoryBinding) {
    && binding.id !in db.bindings
    && forall id :: id in db.bindings ==> db.bindings[id].fullName != binding.fullName
  }

  function DoBindRepository(s: Sys, binding: RepositoryBinding): Sys {
    if !CanBind(s.db, binding) then s else s.(db := s.db.(bindings := s.db.bindings[binding.id := binding]))
  }

  function Synced(db: Db, snapshot: Snapshot, now: Instant): Db {
    db.(snapshots := db.snapshots[snapshot.repositoryFullName := SnapshotRow(snapshot, now)])
  }

  function DoSyncSnapshot(s: Sys, snapshot: Snapshot, now: Instant): Sys {
    s.(db := Synced(s.db, snapshot, now))
  }

  // ----- Planning -----

  function DoBeginPlan(s: Sys, handler: HandlerId, taskId: TaskId): Sys {
    if handler in s.plans || !L.CanPlan(s.db, taskId) then s
    else s.(plans := s.plans[handler := L.PlanRead(s.db, taskId)])
  }

  /** The commit goes ahead only if the stored task is still the one that was read. */
  predicate PlanStillValid(s: Sys, handler: HandlerId, draft: TaskContractDraft, written: nat) {
    && handler in s.plans
    && var job := s.plans[handler];
       && L.IsAssessment(job, draft) && AcceptableDraft(draft) && written <= 4
       && job.task.id in s.db.tasks && s.db.tasks[job.task.id] == job.task
  }

  function DoCommitPlan(s: Sys, handler: HandlerId, draft: TaskContractDraft, now: Instant, written: nat): Sys {
    var finished := s.(plans := s.plans - {handler});
    if !PlanStillValid(s, handler, draft, written) then finished
    else finished.(db := L.PlanCommit(s.db, s.plans[handler], ContractOf(draft), now, written))
  }

  // ----- Preparation -----

  function DoApprovePreparation(s: Sys, preview: L.PreparationPreview, id: ApprovalId, approvedBy: string,
                                now: Instant): Sys
  {
    var r := L.ApprovePreparation(s.db, preview, id, approvedBy, now);
    if id in s.db.approvals || r.Err? then s else s.(db := r.value)
  }

  function DoClaimPreparation(s: Sys, handler: HandlerId, preview: L.PreparationPreview, approvalId: ApprovalId,
                              automationDisabled: bool, now: Instant, claimedAt: Instant): Sys
  {
    var r := L.AuthorizePreparation(s.db, preview, approvalId, automationDisabled, now, claimedAt);
    if handler in s.preps || r.Err? then s
    else s.(db := r.value, preps := s.preps[handler := Prep(approvalId, preview, Authorized)],
            log := s.log + [PreparationClaimed(approvalId, preview.taskId)])
  }

  function DoReadPreparation(s: Sys, handler: HandlerId): Sys {
    if handler !in s.preps || !s.preps[handler].phase.Authorized? then s
    else
      var prep := s.preps[handler];
      var phase := if L.PreviewPreparation(s.db, prep.preview.taskId) == Ok(prep.preview)
                   then Read(s.db.tasks[prep.preview.taskId]) else Abandoned;
      s.(preps := s.preps[handler := prep.(phase := phase)])
  }

  function DoAbandonPreparation(s: Sys, handler: HandlerId): Sys {
    if handler !in s.preps || s.preps[handler].phase.Saved? then s
    else s.(preps := s.preps[handler := s.preps[handler].(phase := Abandoned)])
  }

  /** Saves the copy read earlier without looking at the stored task again. */
  function DoSavePreparation(s: Sys, handler: HandlerId, checkpointId: CheckpointId, now: Instant): Sys {
    if handler !in s.preps || !s.preps[handler].phase.Read? then s
    else
      var prep := s.preps[handler];
      if !prep.phase.task.state.Permits(Preparing) then DoAbandonPreparation(s, handler)
      else s.(db := SaveTask(s.db, L.PreparedTask(prep.phase.task, prep.preview, checkpointId, now)),
              preps := s.preps[handler := prep.(phase := Saved)])
  }

  function DoReleasePreparation(s: Sys, handler: HandlerId): Sys {
    if handler !in s.preps || !(s.preps[handler].phase.Saved? || s.preps[handler].phase.Abandoned?) then s
    else
      var prep := s.preps[handler];
      var released := s.(preps := s.preps - {handler});
      if !IsActiveClaim(s.db, prep.approvalId) then released
      else released.(db := CompletePreparationClaim(s.db, prep.approvalId,
                                                    if prep.phase.Saved? then ClaimResult.Succeeded else ClaimResult.Failed))
  }

  // ----- Verification -----

  /** `written` says how many of the entry transactions were committed; a run starts only after all of them. */
  function DoBeginVerification(s: Sys, runId: RunId, taskId: TaskId, now: Instant, written: nat): Sys {
    if runId in s.runs || !L.CanVerify(s.db, taskId) || written > |L.VerifyEntryPath(s.db.tasks[taskId].state)| then s
    else
      var db := L.VerifyEntry(s.db, taskId, now, written);
      var entered := s.(db := db);
      if !db.tasks[taskId].state.Verifying? || taskId !in db.contracts
         || db.contracts[taskId].verificationCommands == [] then entered
      else entered.(live := s.live + {runId},
                    runs := s.runs[runId := VerificationRun(db.tasks[taskId], db.contracts[taskId].verificationCommands, [])])
  }

  predicate CanRunNext(s: Sys, runId: RunId) {
    && runId in s.live && runId in s.runs
    && |s.runs[runId].outcomes| < |s.runs[runId].commands|
  }

  /** One command, its evidence, and the end of the run when it failed. */
  function DoRunVerificationCommand(s: Sys, runId: RunId, success: bool): Sys {
    if !CanRunNext(s, runId) then s
    else
      var run := s.runs[runId];
      var n := |run.outcomes|;
      s.(db := s.db.(evidence := s.db.evidence[EvidenceKey(run.task.id, runId, n + 1) :=
                                                 VerificationEvidence(run.commands[n], success)]),
         live := if success then s.live else s.live - {runId},
         runs := s.runs[runId := run.(outcomes := run.outcomes + [success])])
  }

  function DoAbandonVerification(s: Sys, runId: RunId): Sys {
    s.(live := s.live - {runId})
  }

  predicate CanCommit(s: Sys, runId: RunId, written: nat) {
    && runId in s.live && runId in s.runs && written <= 2
    && var run := s.runs[runId];
       && |run.outcomes| == |run.commands|
       && run.task.id in s.db.tasks && s.db.tasks[run.task.id] == run.task
  }

  function DoCommitVerification(s: Sys, runId: RunId, checkpointId: CheckpointId, now: Instant, written: nat): Sys {
    var finished := s.(live := s.live - {runId});
    if !CanCommit(s, runId, written) || written == 0 then finished
    else
      var task := s.runs[runId].task;
      finished.(db := L.VerifyCommit(s.db, task, checkpointId, now, written),
                passed := s.passed[task.id := runId],
                log := s.log + [VerificationCommitted(task.id, runId)])
  }

  // ----- Delivery -----

  function DoApproveDelivery(s: Sys, preview: D.DeliveryPreview, id: ApprovalId, approvedBy: string, now: Instant,
                             worktreeHead: Option<Sha>): Sys
  {
    var r := D.ApproveDelivery(s.db, preview, id, approvedBy, now, worktreeHead);
    if id in s.db.approvals || r.Err? then s else s.(db := r.value)
  }

  function DoClaimDelivery(s: Sys, handler: HandlerId, preview: D.DeliveryPreview, approvalId: ApprovalId,
                           automationDisabled: bool, now: Instant, worktreeHead: Option<Sha>): Sys
  {
    var r := D.AuthorizeExecution(s.db, preview, approvalId, automationDisabled, now, worktreeHead);
    if handler in s.execs || r.Err? then s
    else
      var key := preview.action.IdempotencySha256();
      s.(db := r.value, execs := s.execs[handler := Exec(key, preview)],
         log := s.log + [DeliveryClaimed(key, preview.taskId, approvalId)],
         mergeClaim := if IsMergeKey(key) then s.mergeClaim[preview.taskId := key] else s.mergeClaim)
  }

  /** A completion finds its task and its row; otherwise it reports an error and writes nothing. */
  predicate CanComplete(s: Sys, handler: HandlerId) {
    && handler in s.execs
    && s.execs[handler].preview.taskId in s.db.tasks
    && s.execs[handler].key in s.db.deliveries
  }

  function DoSucceedDelivery(s: Sys, handler: HandlerId, merged: bool, now: Instant): Sys {
    var finished := s.(execs := s.execs - {handler});
    if !CanComplete(s, handler) then finished
    else
      var exec := s.execs[handler];
      finished.(db := D.CompleteSuccessful(s.db, exec.preview, exec.key, merged, now),
                log := s.log + [DeliveryRecorded(exec.key, DeliveryResult.Succeeded(merged))])
  }

  function DoFailDelivery(s: Sys, handler: HandlerId, now: Instant): Sys {
    var finished := s.(execs := s.execs - {handler});
    if !CanComplete(s, handler) then finished
    else
      var exec := s.execs[handler];
      finished.(db := D.CompleteFailed(s.db, exec.preview, exec.key, now),
                log := s.log + [DeliveryRecorded(exec.key, DeliveryResult.Failed)])
  }

  function DoLoseDelivery(s: Sys, handler: HandlerId): Sys {
    var finished := s.(execs := s.execs - {handler});
    if !CanComplete(s, handler) then finished
    else
      var exec := s.execs[handler];
      finished.(db := RecordDelivery(s.db, exec.key, Ambiguous),
                log := s.log + [DeliveryRecorded(exec.key, Ambiguous)])
  }

  /** The event a reconciliation leaves for the ambiguous row it settled, if it settled one. */
  function Settled(db: Db, taskId: TaskId, snapshot: Snapshot, ambiguous: Option<Key>): seq<Event> {
    var item := D.ReconciledItem(db, taskId, snapshot);
    if item.Err? || ambiguous.None? || !db.tasks[taskId].state.Merging? then []
    else if D.RemotelyCompleted(item.value) then [DeliveryRecorded(ambiguous.value, DeliveryResult.Succeeded(true))]
    else [DeliveryRecorded(ambiguous.value, DeliveryResult.Failed)]
  }

  function DoReconcile(s: Sys, taskId: TaskId, snapshot: Snapshot, ambiguous: Option<Key>, now: Instant): Sys {
    if !IsAmbiguousChoice(s.db.deliveries, taskId, ambiguous) then s
    else
      var db := Synced(s.db, snapshot, now);
      var r := D.Reconcile(db, taskId, snapshot, ambiguous, now);
      if r.Err? then s.(db := db)
      else s.(db := r.value, log := s.log + Settled(db, taskId, snapshot, ambiguous))
  }

  // ----- Monitors -----

  function DoStartMonitor(s: Sys, id: MonitorId, request: L.MonitorStartRequest, now: Instant): Sys {
    if id in s.db.monitors || !L.CanStartMonitor(s.db, request, now) then s
    else s.(db := L.StartMonitor(s.db, id, request, now))
  }

  function DoObserveMonitor(s: Sys, id: MonitorId, now: Instant, saved: bool): Sys {
    if !L.CanObserveMonitor(s.db, id, now) then s
    else
      var db := L.ObserveMonitor(s.db, id, now, saved);
      s.(db := db,
         mergeGate := if db.monitors[id].payload.state.Succeeded?
                      then s.mergeGate[db.monitors[id].payload.taskId := id] else s.mergeGate)
  }

  function DoWakeMonitor(s: Sys, id: MonitorId, now: Instant): Sys {
    if id !in s.db.monitors then s else s.(db := L.WakeMonitor(s.db, id, now))
  }

  function DoCancelMonitor(s: Sys, id: MonitorId, now: Instant): Sys {
    if id !in s.db.monitors then s else s.(db := L.CancelMonitor(s.db, id, now))
  }

  function DoIngestWebhook(s: Sys, webhook: Webhook, now: Instant): Sys {
    s.(db := Tables.IngestWebhook(s.db, webhook, now))
  }

  // ----- Restart -----

  /** The process stops, losing every handler in flight, and reopens its store. */
  function DoRestart(s: Sys): Sys {
    s.(db := RecoverInterruptedPreparations(s.db), plans := map[], preps := map[], execs := map[], live := {})
  }

  function Apply(s: Sys, a: Action): Sys {
    if a.IsTaskAction() then ApplyTask(s, a)
    else if a.IsPreparationAction() then ApplyPreparation(s, a)
    else if a.IsVerificationAction() then ApplyVerification(s, a)
    else if a.IsDeliveryAction() then ApplyDelivery(s, a)
    else ApplyMonitor(s, a)
  }

  function ApplyTask(s: Sys, a: Action): Sys
    requires a.IsTaskAction()
  {
    match a
    case CreateTask(id, title, path, now) => DoCreateTask(s, id, title, path, now)
    case ConvertTask(id, title, path, source, binding, now) => DoConvertTask(s, id, title, path, source, binding, now)
    case BindRepository(binding) => DoBindRepository(s, binding)
    case SyncSnapshot(snapshot, now) => DoSyncSnapshot(s, snapshot, now)
    case BeginPlan(h, id) => DoBeginPlan(s, h, id)
    case CommitPlan(h, draft, now, written) => DoCommitPlan(s, h, draft, now, written)
  }

  function ApplyPreparation(s: Sys, a: Action): Sys
    requires a.IsPreparationAction()
  {
    match a
    case ApprovePreparation(preview, id, who, now) => DoApprovePreparation(s, preview, id, who, now)
    case ClaimPreparation(h, preview, id, off, now, at) => DoClaimPreparation(s, h, preview, id, off, now, at)
    case ReadPreparation(h) => DoReadPreparation(s, h)
    case AbandonPreparation(h) => DoAbandonPreparation(s, h)
    case SavePreparation(h, checkpoint, now) => DoSavePreparation(s, h, checkpoint, now)
    case ReleasePreparation(h) => DoReleasePreparation(s, h)
  }

  function ApplyVerification(s: Sys, a: Action): Sys
    requires a.IsVerificationAction()
  {
    match a
    case BeginVerification(run, id, now, written) => DoBeginVerification(s, run, id, now, written)
    case RunVerificationCommand(run, success) => DoRunVerificationCommand(s, run, success)
    case AbandonVerification(run) => DoAbandonVerification(s, run)
    case CommitVerification(run, checkpoint, now, written) => DoCommitVerification(s, run, checkpoint, now, written)
  }

  function ApplyDelivery(s: Sys, a: Action): Sys
    requires a.IsDeliveryAction()
  {
    match a
    case ApproveDelivery(preview, id, who, now, head) => DoApproveDelivery(s, preview, id, who, now, head)
    case ClaimDelivery(h, preview, id, off, now, head) => DoClaimDelivery(s, h, preview, id, off, now, head)
    case SucceedDelivery(h, merged, now) => DoSucceedDelivery(s, h, merged, now)
    case FailDelivery(h, now) => DoFailDelivery(s, h, now)
    case LoseDelivery(h) => DoLoseDelivery(s, h)
    case Reconcile(id, snapshot, ambiguous, now) => DoReconcile(s, id, snapshot, ambiguous, now)
  }

  function ApplyMonitor(s: Sys, a: Action): Sys
    requires !a.IsTaskAction() && !a.IsPreparationAction() && !a.IsVerificationAction() && !a.IsDeliveryAction()
  {
    match a
    case StartMonitor(id, request, now) => DoStartMonitor(s, id, request, now)
    case ObserveMonitor(id, now, saved) => DoObserveMonitor(s, id, now, saved)
    case WakeMonitor(id, now) => DoWakeMonitor(s, id, now)
    case CancelMonitor(id, now) => DoCancelMonitor(s, id, now)
    case IngestWebhook(webhook, now) => DoIngestWebhook(s, webhook, now)
    case Restart => DoRestart(s)
  }

  /** The state after a run. */
  function Run(actions: seq<Action>): Sys {
    if actions == [] then INITIAL
    else Apply(Run(actions[..|actions| - 1]), Last(actions))
  }
}
