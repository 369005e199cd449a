/** What preview, approval, authorization, completion and reconciliation of a delivery compute. */
module DeliverySpec {
  import opened Base
  import opened Sources
  import opened Domain
  import opened Contract
  import opened Capabilities
  import opened GitHubActions
  import opened Policy
  import opened Tables

  datatype DeliveryPreview = DeliveryPreview(taskId: TaskId, action: GitHubActionPreview, fingerprint: ActionFingerprint)

  datatype DeliveryError =
    | TaskMissing | ContractMissing | TaskStateInvalid | CapabilityNotDeclared | BindingMissing | BindingMismatch
    | RemoteMismatch | ActionTargetMismatch | BranchMismatch | PreconditionMismatch | SourceMismatch
    | RemoteItemMissing | RemoteNotCompleted | PreviewStale | ApprovalMissing | ApprovalInvalid | PolicyDenied
    | AlreadyClaimed | Persistence

  function PreparedBranch(taskId: TaskId): string {
    "patchwright/" + IdText(taskId)
  }

  /** Deliveries wait at the delivery gate, merges at the merge gate. */
  function GateState(capability: Capability): TaskState {
    if IsMergeCapability(capability) then AwaitingMergeApproval else AwaitingDeliveryApproval
  }

  predicate RemoteMatches(remote: RemoteIdentity, binding: RepositoryBinding) {
    && remote.repositoryId == binding.githubRepositoryId
    && remote.installationId == binding.installationId
    && remote.repositoryFullName == binding.fullName
  }

  predicate SourceMatches(source: TaskSource, binding: RepositoryBinding) {
    && (source.RepositoryId().Some? ==> source.RepositoryId().value == binding.githubRepositoryId)
    && (source.RepositoryFullName().Some? ==> source.RepositoryFullName().value == binding.fullName)
  }

  /** Item-level actions need an item source: closures of issues an issue, comments either, the rest a pull request. */
  predicate TargetMatches(action: GitHubAction, source: TaskSource) {
    && (action.PullRequestNumber().Some? ==> action.PullRequestNumber() == source.ItemNumber())
    && match action
       case CloseIssue(_) => source.GitHubIssue?
       case PostComment(_, _) => source.GitHubIssue? || source.GitHubPullRequest?
       case CreateBranch(_, _) => true
       case PushIntent(_, _) => true
       case CheckRun(_, _, _, _) => true
       case DraftPullRequest(_, _, _, _, _, _) => true
       case _ => source.GitHubPullRequest?
  }

  predicate BranchMatches(action: GitHubAction, binding: RepositoryBinding, taskId: TaskId) {
    && (action.Branch().Some? ==> action.Branch().value == PreparedBranch(taskId))
    && (action.DraftPullRequest? ==> action.base == binding.defaultBranch)
  }

  /** An expectation of the action must be the precondition's, and the contract's where it pins one. */
  predicate Bound(expected: Option<Sha>, precondition: Option<Sha>, pinned: Option<Sha>) {
    precondition == expected && (expected.Some? && pinned.Some? ==> pinned == expected)
  }

  predicate PreconditionsBound(action: GitHubActionPreview, contract: TaskContract) {
    && Bound(action.action.ExpectedHeadSha(), action.precondition.expectedHeadSha, contract.headSha)
    && Bound(action.action.ExpectedBaseSha(), action.precondition.expectedBaseSha, contract.baseSha)
  }

  /** `worktreeHead` is what inspecting the task's worktree yields, if it can be inspected. */
  predicate ShaMatches(action: GitHubAction, contract: TaskContract, worktreeHead: Option<Sha>) {
    match action
    case CreateBranch(_, fromSha) => contract.baseSha == Some(fromSha)
    case CheckRun(_, headSha, _, _) =>
      Some(headSha) == if contract.headSha.Some? then contract.headSha else worktreeHead
    case _ => true
  }

  function FingerprintOf(taskId: TaskId, action: GitHubActionPreview, contract: TaskContract): ActionFingerprint {
    ActionFingerprint(
      taskId, action.remote.repositoryId, action.remote.repositoryFullName, action.ActionCapability(),
      action.action.PullRequestNumber(), action.action.Branch(), action.precondition.expectedHeadSha,
      action.precondition.expectedBaseSha, ActionPayload(action.action), DeliveryPolicyV1,
      contract.instructionDigests, action.precondition.snapshotGeneration)
  }

  function PreviewDelivery(db: Db, taskId: TaskId, action: GitHubActionPreview, worktreeHead: Option<Sha>)
    : Result<DeliveryPreview, DeliveryError>
  {
    if taskId !in db.tasks then Err(TaskMissing)
    else
      var task := db.tasks[taskId];
      :- Need(taskId in db.contracts, ContractMissing);
      var contract := db.contracts[taskId];
      :- Need(task.state == GateState(action.ActionCapability()), TaskStateInvalid);
      :- Need(action.ActionCapability() in contract.requiredCapabilities, CapabilityNotDeclared);
      :- Need(task.bindingId.Some?, BindingMissing);
      :- Need(task.bindingId.value == contract.bindingId, BindingMismatch);
      :- Need(contract.bindingId in db.bindings, BindingMissing);
      var binding := db.bindings[contract.bindingId];
      :- Need(RemoteMatches(action.remote, binding), RemoteMismatch);
      :- Need(SourceMatches(contract.source, binding), SourceMismatch);
      :- Need(TargetMatches(action.action, contract.source), ActionTargetMismatch);
      :- Need(BranchMatches(action.action, binding, taskId), BranchMismatch);
      :- Need(PreconditionsBound(action, contract), PreconditionMismatch);
      :- Need(ShaMatches(action.action, contract, worktreeHead), PreconditionMismatch);
      Ok(DeliveryPreview(taskId, action, FingerprintOf(taskId, action, contract)))
  }

  predicate IsFresh(db: Db, preview: DeliveryPreview, worktreeHead: Option<Sha>) {
    PreviewDelivery(db, preview.taskId, preview.action, worktreeHead) == Ok(preview)
  }

  function DeliveryApproval(preview: DeliveryPreview, id: ApprovalId, approvedBy: string, now: Instant): Approval {
    var capability := preview.action.ActionCapability();
    Approval(id, if IsMergeCapability(capability) then ApprovalClass.Merge else GitHubDelivery, capability,
             preview.fingerprint, approvedBy, now, now + APPROVAL_DURATION)
  }

  function ApproveDelivery(db: Db, preview: DeliveryPreview, id: ApprovalId, approvedBy: string, now: Instant,
                           worktreeHead: Option<Sha>): Result<Db, DeliveryError>
  {
    var _ :- PreviewDelivery(db, preview.taskId, preview.action, worktreeHead);
    :- Need(IsFresh(db, preview, worktreeHead), PreviewStale);
    :- Need(Trim(approvedBy) != "", ApprovalInvalid);
    Ok(SaveApproval(db, DeliveryApproval(preview, id, Trim(approvedBy), now)))
  }

  /** The task version that is saved together with a merge claim. */
  function ClaimEvent(db: Db, preview: DeliveryPreview, now: Instant): Option<Task>
    requires preview.taskId in db.tasks
  {
    if IsMergeCapability(preview.action.ActionCapability()) then Some(Moved(db.tasks[preview.taskId], Merging, now)) else None
  }

  /** Everything that is asked before the key is claimed. */
  function CheckExecution(db: Db, preview: DeliveryPreview, approvalId: ApprovalId, automationDisabled: bool,
                          now: Instant, worktreeHead: Option<Sha>): Result<(), DeliveryError>
  {
    var _ :- PreviewDelivery(db, preview.taskId, preview.action, worktreeHead);
    :- Need(IsFresh(db, preview, worktreeHead), PreviewStale);
    var approval := LiveApproval(db, approvalId);
    :- Need(approval.Some?, ApprovalMissing);
    var decision := Authorize(automationDisabled, preview.action.ActionCapability(), preview.fingerprint, approval, now);
    :- Need(!decision.ApprovalRequired?, ApprovalInvalid);
    :- Need(!decision.Denied?, PolicyDenied);
    Ok(())
  }

  function AuthorizeExecution(db: Db, preview: DeliveryPreview, approvalId: ApprovalId, automationDisabled: bool,
                              now: Instant, worktreeHead: Option<Sha>): Result<Db, DeliveryError>
  {
    var _ :- CheckExecution(db, preview, approvalId, automationDisabled, now, worktreeHead);
    var key := preview.action.IdempotencySha256();
    :- Need(Claimable(db.deliveries, key), DeliveryError.AlreadyClaimed);
    Ok(ClaimDelivery(db, key, ClaimEvent(db, preview, now), now))
  }

  // ----- Completion -----

  /** The states a task walks when its delivery succeeds; empty when only the row is completed. */
  function SuccessPath(capability: Capability, merged: bool, state: TaskState): seq<TaskState> {
    match capability
    case MergePullRequest => if merged && state.Merging? then [Completed] else []
    case CloseIssue => ClosePath(state)
    case ClosePullRequest => ClosePath(state)
    case CreatePullRequest => MonitorPath(state)
    case PostReview => MonitorPath(state)
    case UpdatePullRequestBranch => MonitorPath(state)
    case ReadyPullRequest => MonitorPath(state)
    case _ => []
  }

  function MonitorPath(state: TaskState): seq<TaskState> {
    if state.AwaitingDeliveryApproval? then [Delivering, TaskState.Monitoring]
    else if state.Delivering? then [TaskState.Monitoring]
    else []
  }

  function ClosePath(state: TaskState): seq<TaskState> {
    if state.Monitoring? then [Completed]
    else if MonitorPath(state) == [] then []
    else MonitorPath(state) + [Completed]
  }

  function CompleteSuccessful(db: Db, preview: DeliveryPreview, key: Key, merged: bool, now: Instant): Db
    requires preview.taskId in db.tasks && key in db.deliveries
  {
    var task := db.tasks[preview.taskId];
    SaveVersions(RecordDelivery(db, key, DeliveryResult.Succeeded(merged)), task.id,
                 Versions(task, SuccessPath(preview.action.ActionCapability(), merged, task.state), now))
  }

  function CompleteFailed(db: Db, preview: DeliveryPreview, key: Key, now: Instant): Db
    requires preview.taskId in db.tasks && key in db.deliveries
  {
    var task := db.tasks[preview.taskId];
    if IsMergeCapability(preview.action.ActionCapability()) && task.state.Merging? then
      CompleteFailedMerge(db, key, Moved(task, AwaitingMergeApproval, now))
    else RecordDelivery(db, key, DeliveryResult.Failed)
  }

  // ----- Reconciliation -----

  function FirstNumbered(items: seq<WorkItem>, number: nat): Option<WorkItem> {
    if items == [] then None
    else if items[0].number == number then Some(items[0])
    else FirstNumbered(items[1..], number)
  }

  /** Whether the remote item shows the outcome the task was created for. */
  predicate RemotelyCompleted(item: WorkItem) {
    match item.kind
    case PullRequest => item.merged == Some(true)
    case Issue => item.state == "closed" && item.stateReason != Some("not_planned")
  }

  /** The states from the current one to Completed; None when completion cannot be reconciled from here. */
  function CompletionPath(state: TaskState): Option<seq<TaskState>> {
    match state
    case AwaitingDeliveryApproval => Some([Delivering, TaskState.Monitoring, AwaitingMergeApproval, Merging, Completed])
    case Delivering => Some([TaskState.Monitoring, AwaitingMergeApproval, Merging, Completed])
    case Monitoring => Some([AwaitingMergeApproval, Merging, Completed])
    case AwaitingMergeApproval => Some([Merging, Completed])
    case Merging => Some([Completed])
    case _ => None
  }

  function ReconciledItem(db: Db, taskId: TaskId, snapshot: Snapshot): Result<WorkItem, DeliveryError> {
    if taskId !in db.tasks then Err(TaskMissing)
    else
      var source := db.tasks[taskId].source;
      :- Need(!source.LocalRequest?, SourceMismatch);
      :- Need(snapshot.repositoryId == source.repositoryId && snapshot.repositoryFullName == source.repositoryFullName,
              SourceMismatch);
      var found := FirstNumbered(snapshot.workItems, source.number);
      :- Need(found.Some?, RemoteItemMissing);
      :- Need(found.value.kind.PullRequest? ==> source.HeadSha() == found.value.headSha, PreconditionMismatch);
      Ok(found.value)
  }

  /** `ambiguous` is the row the newest-first lookup returned; it is consulted for a merging task only. */
  function Reconcile(db: Db, taskId: TaskId, snapshot: Snapshot, ambiguous: Option<Key>, now: Instant)
    : Result<Db, DeliveryError>
    requires ambiguous.Some? ==> ambiguous.value in db.deliveries
  {
    var item :- ReconciledItem(db, taskId, snapshot);
    var task := db.tasks[taskId];
    var key := if task.state.Merging? then ambiguous else None;
    if !RemotelyCompleted(item) then
      :- Need(key.Some? && item.kind.PullRequest?, RemoteNotCompleted);
      Ok(CompleteFailedMerge(db, key.value, Moved(task, AwaitingMergeApproval, now)))
    else if task.state.Completed? then Ok(db)
    else
      var path := CompletionPath(task.state);
      :- Need(path.Some?, Persistence);
      var recorded := if key.Some? then RecordDelivery(db, key.value, DeliveryResult.Succeeded(true)) else db;
      Ok(SaveVersions(recorded, task.id, Versions(task, path.value, now)))
  }
}
