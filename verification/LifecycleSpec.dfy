/** What planning, preparation, verification and monitoring handlers compute in each lock section. */
module LifecycleSpec {
  import opened Base
  import opened Sources
  import opened Domain
  import opened Contract
  import opened Capabilities
  import opened GitHubActions
  import opened Policy
  import opened Tables
  import opened DeliverySpec
  import M = Monitoring

  // ----- Planning -----

  const PLAN_PATH: seq<TaskState> := [Assessing, Planned, AwaitingPreparationApproval]

  /** The two records the first section of planning reads before the repository is inspected. */
  datatype PlanJob = PlanJob(task: Task, binding: RepositoryBinding)

  predicate CanPlan(db: Db, taskId: TaskId) {
    && taskId in db.tasks
    && db.tasks[taskId].state.Discovered?
    && db.tasks[taskId].bindingId.Some?
    && db.tasks[taskId].bindingId.value in db.bindings
  }

  function PlanRead(db: Db, taskId: TaskId): PlanJob
    requires CanPlan(db, taskId)
  {
    PlanJob(db.tasks[taskId], db.bindings[db.tasks[taskId].bindingId.value])
  }

  /** The draft the planner writes for a task: identities from the task and its binding,
      everything else from inspecting the repository. */
  predicate IsAssessment(job: PlanJob, draft: TaskContractDraft) {
    && job.task.bindingId == Some(job.binding.id)
    && draft.taskId == job.task.id
    && draft.source == job.task.source
    && draft.bindingId == job.binding.id
    && draft.headSha == job.task.source.HeadSha()
    && draft.baseSha == (if job.task.source.BaseSha().Some? then job.task.source.BaseSha() else job.binding.defaultBranchSha)
  }

  /** The commit writes the contract and then three task versions, each in its own transaction;
      `written` is how many of those four transactions were committed. */
  function PlanCommit(db: Db, job: PlanJob, contract: TaskContract, now: Instant, written: nat): Db
    requires written <= 4
  {
    if written == 0 then db
    else
      var planned := job.task.(contractVersion := contract.version);
      SaveVersions(db.(contracts := db.contracts[contract.taskId := contract]), planned.id,
                   Versions(planned, PLAN_PATH, now)[..written - 1])
  }

  // ----- Preparation -----

  datatype PreparationPreview = PreparationPreview(
    taskId: TaskId,
    bindingId: BindingId,
    repositoryFullName: string,
    repositoryPath: string,
    sourceSha: Sha,
    worktreePath: string,
    branch: string,
    invalidationGeneration: nat,
    contract: TaskContract,
    fingerprint: ActionFingerprint)

  datatype PreparationError =
    | TaskMissing | TaskStateInvalid | BindingMissing | ContractMissing | BindingMismatch | SourceShaMissing
    | RepositoryUnavailable | PreviewStale | ApprovalMissing | ApprovalInvalid | ApprovalAlreadyUsed
    | TaskInProgress | PolicyDenied

  function OrElse<T>(first: Option<T>, second: Option<T>): Option<T> {
    if first.Some? then first else second
  }

  function PreviewPreparation(db: Db, taskId: TaskId): Result<PreparationPreview, PreparationError> {
    if taskId !in db.tasks then Err(PreparationError.TaskMissing)
    else
      var task := db.tasks[taskId];
      :- Need(task.state.AwaitingPreparationApproval?, PreparationError.TaskStateInvalid);
      :- Need(task.bindingId.Some? && task.bindingId.value in db.bindings, PreparationError.BindingMissing);
      var binding := db.bindings[task.bindingId.value];
      :- Need(taskId in db.contracts, PreparationError.ContractMissing);
      var contract := db.contracts[taskId];
      :- Need(contract.bindingId == task.bindingId.value && contract.taskId == task.id, PreparationError.BindingMismatch);
      var sourceSha := OrElse(contract.headSha, contract.baseSha);
      :- Need(sourceSha.Some?, SourceShaMissing);
      var repositoryPath := OrElse(binding.managedClone, binding.userCheckout);
      :- Need(repositoryPath.Some?, RepositoryUnavailable);
      var worktreePath := binding.worktreeRoot + "/" + IdText(task.id);
      var branch := PreparedBranch(task.id);
      var generation := UnsignedMicros(task.updatedAt);
      var payload := PreparationPayload(taskId, contract.bindingId, binding.fullName, repositoryPath.value,
                                        sourceSha.value, worktreePath, branch, generation, contract);
      Ok(PreparationPreview(
        taskId, contract.bindingId, binding.fullName, repositoryPath.value, sourceSha.value, worktreePath, branch,
        generation, contract,
        ActionFingerprint(taskId, binding.githubRepositoryId, binding.fullName, PrepareWorktree, None, Some(branch),
                          sourceSha, None, payload, PreparationPolicyV1, contract.instructionDigests, generation)))
  }

  function ApprovePreparation(db: Db, preview: PreparationPreview, id: ApprovalId, approvedBy: string, now: Instant)
    : Result<Db, PreparationError>
  {
    var current :- PreviewPreparation(db, preview.taskId);
    :- Need(current == preview, PreparationError.PreviewStale);
    :- Need(Trim(approvedBy) != "", PreparationError.ApprovalInvalid);
    Ok(SaveApproval(db, Approval(id, ApprovalClass.Preparation, PrepareWorktree, preview.fingerprint, Trim(approvedBy),
                                 now, now + APPROVAL_DURATION)))
  }

  /** Two clock readings: policy is asked at `now`, the claim is made at `claimedAt`. */
  function AuthorizePreparation(db: Db, preview: PreparationPreview, approvalId: ApprovalId,
                                automationDisabled: bool, now: Instant, claimedAt: Instant)
    : Result<Db, PreparationError>
  {
    var current :- PreviewPreparation(db, preview.taskId);
    :- Need(current == preview, PreparationError.PreviewStale);
    var approval := LiveApproval(db, approvalId);
    :- Need(approval.Some?, PreparationError.ApprovalMissing);
    var decision := Authorize(automationDisabled, PrepareWorktree, preview.fingerprint, approval, now);
    :- Need(!decision.ApprovalRequired?, PreparationError.ApprovalInvalid);
    :- Need(!decision.Denied?, PreparationError.PolicyDenied);
    match ClaimPreparationOutcome(db, approvalId, preview.taskId, preview.fingerprint, claimedAt)
    case Claimed => Ok(ClaimPreparation(db, approvalId, preview.taskId, preview.fingerprint, claimedAt))
    case ApprovalUnavailable => Err(PreparationError.ApprovalInvalid)
    case AlreadyClaimed => Err(ApprovalAlreadyUsed)
    case TaskInProgress => Err(PreparationError.TaskInProgress)
  }

  /** The task version a successful preparation saves, made from the copy it read earlier. */
  function PreparedTask(task: Task, preview: PreparationPreview, checkpointId: CheckpointId, now: Instant): Task {
    Moved(task.(repositoryPath := preview.worktreePath), Preparing, now).(checkpointId := Some(checkpointId))
  }

  // ----- Verification -----

  /** The states the first section saves before the commands run, one transaction each. */
  function VerifyEntryPath(state: TaskState): seq<TaskState> {
    if state.Preparing? then [Implementing, Verifying]
    else if state.Implementing? then [Verifying]
    else []
  }

  predicate CanVerify(db: Db, taskId: TaskId) {
    && taskId in db.tasks
    && db.tasks[taskId].state in {Preparing, Implementing, Verifying}
  }

  function VerifyEntry(db: Db, taskId: TaskId, now: Instant, written: nat): Db
    requires CanVerify(db, taskId)
    requires written <= |VerifyEntryPath(db.tasks[taskId].state)|
  {
    var task := db.tasks[taskId];
    SaveVersions(db, task.id, Versions(task, VerifyEntryPath(task.state), now)[..written])
  }

  /** Reviewing first, then the delivery gate with its checkpoint. */
  function VerifiedVersions(task: Task, checkpointId: CheckpointId, now: Instant): seq<Task> {
    [Moved(task, Reviewing, now), Moved(task, AwaitingDeliveryApproval, now).(checkpointId := Some(checkpointId))]
  }

  function VerifyCommit(db: Db, task: Task, checkpointId: CheckpointId, now: Instant, written: nat): Db
    requires written <= 2
  {
    SaveVersions(db, task.id, VerifiedVersions(task, checkpointId, now)[..written])
  }

  // ----- Monitors -----

  const MAX_MONITOR_SNAPSHOT_AGE: int := 5 * NANOS_PER_MINUTE

  datatype MonitorStartRequest = MonitorStartRequest(
    taskId: TaskId, repositoryFullName: string, pullRequestNumber: nat, expectedHeadSha: Sha, expectedBaseSha: Sha,
    repairBudget: nat)

  predicate IsFreshSnapshot(db: Db, repositoryFullName: string, now: Instant) {
    && repositoryFullName in db.snapshots
    && 0 <= now - db.snapshots[repositoryFullName].syncedAt <= MAX_MONITOR_SNAPSHOT_AGE
  }

  function FindPullRequest(items: seq<WorkItem>, repositoryFullName: string, number: nat): Option<WorkItem> {
    if items == [] then None
    else if items[0].kind.PullRequest? && items[0].repositoryFullName == repositoryFullName && items[0].number == number
    then Some(items[0])
    else FindPullRequest(items[1..], repositoryFullName, number)
  }

  /** A pull-request task is monitored at its captured identity, any other task at its prepared branch. */
  predicate IsMonitorTarget(task: Task, item: WorkItem, request: MonitorStartRequest) {
    && item.headSha == Some(request.expectedHeadSha)
    && item.baseSha == Some(request.expectedBaseSha)
    && match task.source
       case GitHubPullRequest(_, fullName, number, _, _, baseSha, _, headSha) =>
         && fullName == request.repositoryFullName && number == request.pullRequestNumber
         && headSha == request.expectedHeadSha && baseSha == request.expectedBaseSha
       case GitHubIssue(_, fullName, _, _) =>
         fullName == request.repositoryFullName && item.headRef == Some(PreparedBranch(task.id))
       case LocalRequest => item.headRef == Some(PreparedBranch(task.id))
  }

  predicate CanStartMonitor(db: Db, request: MonitorStartRequest, now: Instant) {
    && request.taskId in db.tasks
    && var task := db.tasks[request.taskId];
       && task.state.Monitoring?
       && task.id in db.contracts
       && var contract := db.contracts[task.id];
       && contract.source == task.source
       && task.bindingId == Some(contract.bindingId)
       && contract.bindingId in db.bindings
       && db.bindings[contract.bindingId].fullName == request.repositoryFullName
       && IsFreshSnapshot(db, request.repositoryFullName, now)
       && var item := FindPullRequest(db.snapshots[request.repositoryFullName].snapshot.workItems,
                                      request.repositoryFullName, request.pullRequestNumber);
          && item.Some?
          && IsMonitorTarget(task, item.value, request)
          && M.CanStart(request.repositoryFullName, request.pullRequestNumber, request.expectedHeadSha,
                        request.expectedBaseSha, request.repairBudget)
  }

  function StartMonitor(db: Db, id: MonitorId, request: MonitorStartRequest, now: Instant): Db
    requires CanStartMonitor(db, request, now)
  {
    SaveMonitor(db, M.NewMonitor(id, request.taskId, request.repositoryFullName, request.pullRequestNumber,
                                 request.expectedHeadSha, request.expectedBaseSha,
                                 db.snapshots[request.repositoryFullName].syncedAt, request.repairBudget))
  }

  function CiOf(health: Option<string>): Option<M.CIState> {
    if health == Some("passing") then Some(M.Success)
    else if health == Some("failing") then Some(M.Failure)
    else if health in {Some("pending"), Some("unknown"), None} then Some(M.CIState.Pending)
    else None
  }

  function ReviewOf(decision: Option<string>): Option<M.ReviewState> {
    if decision == Some("approved") then Some(M.Approved)
    else if decision == Some("changesRequested") then Some(M.ChangesRequested)
    else if decision == Some("approvalDismissed") then Some(M.ApprovalDismissed)
    else if decision in {Some("reviewRequired"), None} then Some(M.ReviewState.Pending)
    else None
  }

  function MergeabilityOf(item: WorkItem): M.Mergeability {
    if item.hasConflicts == Some(true) then M.Conflicting
    else if item.mergeable == Some(true) then M.Mergeable
    else if item.mergeable == Some(false) then M.Conflicting
    else M.Unknown
  }

  function ObservationOf(item: WorkItem, observedAt: Instant): Option<M.RemoteObservation> {
    if item.headSha.Some? && item.baseSha.Some? && CiOf(item.ciHealth).Some? && ReviewOf(item.reviewDecision).Some? then
      Some(M.RemoteObservation(observedAt, item.headSha.value, item.baseSha.value, CiOf(item.ciHealth).value,
                               ReviewOf(item.reviewDecision).value, MergeabilityOf(item), true, true, None))
    else None
  }

  /** The observation the engine makes for a stored monitor from its own synced snapshot. */
  function FreshObservation(db: Db, monitor: M.Monitor, now: Instant): Option<M.RemoteObservation> {
    if !IsFreshSnapshot(db, monitor.repositoryFullName, now) then None
    else
      var row := db.snapshots[monitor.repositoryFullName];
      var item := FindPullRequest(row.snapshot.workItems, monitor.repositoryFullName, monitor.pullRequestNumber);
      if item.None? then None else ObservationOf(item.value, row.syncedAt)
  }

  predicate CanObserveMonitor(db: Db, id: MonitorId, now: Instant) {
    && id in db.monitors
    && var monitor := db.monitors[id].payload;
       && FreshObservation(db, monitor, now).Some?
       && M.CanObserve(monitor, FreshObservation(db, monitor, now).value)
       && (M.Observed(monitor, FreshObservation(db, monitor, now).value, now).state.Succeeded? ==>
             CanOpenGate(db, monitor.taskId))
  }

  predicate CanOpenGate(db: Db, taskId: TaskId) {
    taskId in db.tasks && db.tasks[taskId].id == taskId && db.tasks[taskId].state.Monitoring?
  }

  /** `saved` is false when only the invalidation of approvals was committed. */
  function ObserveMonitor(db: Db, id: MonitorId, now: Instant, saved: bool): Db
    requires CanObserveMonitor(db, id, now)
  {
    var monitor := M.Observed(db.monitors[id].payload, FreshObservation(db, db.monitors[id].payload, now).value, now);
    var cleared := if M.OutcomeOf(monitor).invalidateApprovals then InvalidateTaskApprovals(db, monitor.taskId) else db;
    if !saved then cleared
    else if monitor.state.Succeeded? then
      SaveMonitorWithTaskEvent(cleared, monitor, Moved(db.tasks[monitor.taskId], AwaitingMergeApproval, now))
    else SaveMonitor(cleared, monitor)
  }

  function WakeMonitor(db: Db, id: MonitorId, now: Instant): Db
    requires id in db.monitors
  {
    var monitor := db.monitors[id].payload;
    if monitor.state.Pending? then SaveMonitor(db, M.Woken(monitor, now)) else db
  }

  function CancelMonitor(db: Db, id: MonitorId, now: Instant): Db
    requires id in db.monitors
  {
    var monitor := db.monitors[id].payload;
    if monitor.state.IsTerminal() then db else SaveMonitor(db, M.CancelledBy(monitor, now))
  }
}
