/** When a delivery may be approved and claimed, and what its result does to its task, said about the
    tables and the action themselves. */
module DeliveryRules {
  import opened Base
  import opened Sources
  import opened Domain
  import opened Contract
  import opened Capabilities
  import opened GitHubActions
  import opened Policy
  import opened Tables
  import D = DeliverySpec

  // ----- What an action demands -----

  /** Where a task must stand, which approval and which declared capability an action needs, and which
      item and branch it names. */
  datatype Demand = Demand(gate: TaskState, class_: ApprovalClass, capability: Capability, number: Option<nat>,
                           branch: Option<string>)

  function DemandOf(action: GitHubAction): Demand {
    match action
    case CreateBranch(branch, _) => Delivered(Capability.CreateBranch, None, Some(branch))
    case PushIntent(branch, _) => Delivered(PushBranch, None, Some(branch))
    case PostComment(number, _) => Delivered(Capability.PostComment, Some(number), None)
    case Review(number, _, _, _, _) => Delivered(PostReview, Some(number), None)
    case ResolveReviewThread(number, _, _) => Delivered(ResolveThread, Some(number), None)
    case CheckRun(_, _, _, _) => Delivered(CreateCheckRun, None, None)
    case DraftPullRequest(_, head, _, _, _, _) => Delivered(CreatePullRequest, None, Some(head))
    case UpdatePullRequestBranch(number, _) => Delivered(Capability.UpdatePullRequestBranch, Some(number), None)
    case ReadyPullRequest(number, _) => Delivered(Capability.ReadyPullRequest, Some(number), None)
    case ClosePullRequest(number, _) => Delivered(Capability.ClosePullRequest, Some(number), None)
    case CloseIssue(number) => Delivered(Capability.CloseIssue, Some(number), None)
    case EnqueuePullRequest(number, _) =>
      Demand(AwaitingMergeApproval, ApprovalClass.Merge, Capability.EnqueuePullRequest, Some(number), None)
    case MergePullRequest(number, _, _) =>
      Demand(AwaitingMergeApproval, ApprovalClass.Merge, Capability.MergePullRequest, Some(number), None)
  }

  function Delivered(capability: Capability, number: Option<nat>, branch: Option<string>): Demand {
    Demand(AwaitingDeliveryApproval, GitHubDelivery, capability, number, branch)
  }

  predicate OnPullRequest(source: TaskSource, number: nat) { source.GitHubPullRequest? && source.number == number }

  predicate OnIssue(source: TaskSource, number: nat) { source.GitHubIssue? && source.number == number }

  predicate NotOther(pinned: Option<Sha>, sha: Sha) { pinned == None || pinned == Some(sha) }

  predicate Expects(precondition: RemotePrecondition, head: Option<Sha>, base: Option<Sha>) {
    precondition.expectedHeadSha == head && precondition.expectedBaseSha == base
  }

  /** An action on the task's own pull request at one head. */
  predicate OnHead(contract: TaskContract, precondition: RemotePrecondition, number: nat, head: Sha) {
    && OnPullRequest(contract.source, number)
    && Expects(precondition, Some(head), None) && NotOther(contract.headSha, head)
  }

  /** Target, branch and SHAs, action by action. `own` is the branch prepared for the task. */
  predicate Aimed(contract: TaskContract, binding: RepositoryBinding, own: string, action: GitHubAction,
                  precondition: RemotePrecondition, worktreeHead: Option<Sha>)
  {
    match action
    case CreateBranch(branch, fromSha) =>
      branch == own && contract.baseSha == Some(fromSha) && Expects(precondition, None, Some(fromSha))
    case PushIntent(branch, _) => branch == own && Expects(precondition, None, None)
    case PostComment(number, _) =>
      (OnIssue(contract.source, number) || OnPullRequest(contract.source, number)) && Expects(precondition, None, None)
    case CheckRun(_, head, _, _) =>
      && Expects(precondition, None, None)
      && (contract.headSha == Some(head) || (contract.headSha == None && worktreeHead == Some(head)))
    case DraftPullRequest(_, branch, base, _, head, baseSha) =>
      && branch == own && base == binding.defaultBranch
      && Expects(precondition, Some(head), Some(baseSha))
      && NotOther(contract.headSha, head) && NotOther(contract.baseSha, baseSha)
    case CloseIssue(number) => OnIssue(contract.source, number) && Expects(precondition, None, None)
    case Review(number, head, _, _, _) => OnHead(contract, precondition, number, head)
    case ResolveReviewThread(number, _, head) => OnHead(contract, precondition, number, head)
    case UpdatePullRequestBranch(number, head) => OnHead(contract, precondition, number, head)
    case ReadyPullRequest(number, head) => OnHead(contract, precondition, number, head)
    case ClosePullRequest(number, head) => OnHead(contract, precondition, number, head)
    case EnqueuePullRequest(number, head) => OnHead(contract, precondition, number, head)
    case MergePullRequest(number, head, _) => OnHead(contract, precondition, number, head)
  }

  /** The task stands at the action's gate, its contract declares the capability, task and contract name
      one stored binding, and remote, source and action are that binding's and that contract's. */
  predicate Deliverable(db: Db, taskId: TaskId, action: GitHubActionPreview, worktreeHead: Option<Sha>) {
    && taskId in db.tasks && taskId in db.contracts
    && var task, contract, demand := db.tasks[taskId], db.contracts[taskId], DemandOf(action.action);
       && task.state == demand.gate
       && demand.capability in contract.requiredCapabilities
       && task.bindingId == Some(contract.bindingId) && contract.bindingId in db.bindings
       && var binding := db.bindings[contract.bindingId];
          && action.remote == RemoteIdentity(binding.githubRepositoryId, binding.installationId, binding.fullName)
          && (!contract.source.LocalRequest? ==>
                contract.source.repositoryId == binding.githubRepositoryId
                && contract.source.repositoryFullName == binding.fullName)
          && Aimed(contract, binding, "patchwright/" + IdText(taskId), action.action, action.precondition, worktreeHead)
  }

  /** The fingerprint names the task, the repository, the action in full, its SHAs, the contract's
      instructions and the generation of the snapshot it was made from. */
  predicate Fingerprints(preview: D.DeliveryPreview, contract: TaskContract) {
    var action, demand := preview.action, DemandOf(preview.action.action);
    preview.fingerprint == ActionFingerprint(
      preview.taskId, action.remote.repositoryId, action.remote.repositoryFullName, demand.capability, demand.number,
      demand.branch, action.precondition.expectedHeadSha, action.precondition.expectedBaseSha,
      ActionPayload(action.action), DeliveryPolicyV1, contract.instructionDigests, action.precondition.snapshotGeneration)
  }

  predicate IsCurrent(db: Db, preview: D.DeliveryPreview, worktreeHead: Option<Sha>) {
    Deliverable(db, preview.taskId, preview.action, worktreeHead) && Fingerprints(preview, db.contracts[preview.taskId])
  }

  lemma DemandIsTheActions(action: GitHubAction)
    ensures var demand := DemandOf(action);
            && demand.capability == action.ActionCapability()
            && demand.gate == D.GateState(action.ActionCapability())
            && demand.class_ == RequiredClass(action.ActionCapability())
            && demand.number == action.PullRequestNumber() && demand.branch == action.Branch()
            && (demand.class_.Merge? <==> IsMergeCapability(action.ActionCapability()))
            && (demand.class_.GitHubDelivery? <==> IsDeliveryCapability(action.ActionCapability()))
  {
  }

  lemma AimedExactly(contract: TaskContract, binding: RepositoryBinding, taskId: TaskId, action: GitHubActionPreview,
                     worktreeHead: Option<Sha>)
    ensures Aimed(contract, binding, "patchwright/" + IdText(taskId), action.action, action.precondition, worktreeHead) <==>
              && D.TargetMatches(action.action, contract.source) && D.BranchMatches(action.action, binding, taskId)
              && D.PreconditionsBound(action, contract) && D.ShaMatches(action.action, contract, worktreeHead)
  {
  }

  /** A preview can be made exactly of a deliverable action, and it is current. */
  lemma PreviewedExactly(db: Db, taskId: TaskId, action: GitHubActionPreview, worktreeHead: Option<Sha>)
    ensures var r := D.PreviewDelivery(db, taskId, action, worktreeHead);
            && (r.Ok? <==> Deliverable(db, taskId, action, worktreeHead))
            && (r.Ok? ==> r.value.taskId == taskId && r.value.action == action && IsCurrent(db, r.value, worktreeHead))
  {
    DemandIsTheActions(action.action);
    if taskId in db.contracts && db.contracts[taskId].bindingId in db.bindings {
      AimedExactly(db.contracts[taskId], db.bindings[db.contracts[taskId].bindingId], taskId, action, worktreeHead);
    }
  }

  lemma CurrentIsFresh(db: Db, preview: D.DeliveryPreview, worktreeHead: Option<Sha>)
    ensures IsCurrent(db, preview, worktreeHead) <==> D.IsFresh(db, preview, worktreeHead)
  {
    PreviewedExactly(db, preview.taskId, preview.action, worktreeHead);
  }

  /** A delivery can be approved exactly when it is current and the approver is named; the approval is of
      the class the action demands, for that fingerprint, for ten minutes. */
  lemma ApprovedExactly(db: Db, preview: D.DeliveryPreview, id: ApprovalId, approvedBy: string, now: Instant,
                        worktreeHead: Option<Sha>)
    ensures var r, demand := D.ApproveDelivery(db, preview, id, approvedBy, now, worktreeHead), DemandOf(preview.action.action);
            && (r.Ok? <==> IsCurrent(db, preview, worktreeHead) && Trim(approvedBy) != "")
            && (r.Ok? ==>
                  var approval := Approval(id, demand.class_, demand.capability, preview.fingerprint, Trim(approvedBy), now,
                                           now + 10 * NANOS_PER_MINUTE);
                  r.value == db.(approvals := db.approvals[id :=
                    ApprovalRow(approval, id in db.approvals && db.approvals[id].invalidated)]))
  {
    CurrentIsFresh(db, preview, worktreeHead);
    DemandIsTheActions(preview.action.action);
  }

  // ----- Claims -----

  /** Automation is on, the delivery is current, and a stored, uninvalidated approval of the demanded class
      for exactly that fingerprint is inside its window. */
  predicate IsJustified(db: Db, preview: D.DeliveryPreview, approvalId: ApprovalId, automationDisabled: bool,
                        now: Instant, worktreeHead: Option<Sha>)
  {
    && !automationDisabled
    && IsCurrent(db, preview, worktreeHead)
    && approvalId in db.approvals
    && !db.approvals[approvalId].invalidated
    && var approval, demand := db.approvals[approvalId].approval, DemandOf(preview.action.action);
       && approval.class_ == demand.class_
       && approval.capability == demand.capability
       && approval.fingerprint == preview.fingerprint
       && approval.approvedAt <= now < approval.expiresAt
  }

  lemma CheckedExactly(db: Db, preview: D.DeliveryPreview, approvalId: ApprovalId, automationDisabled: bool,
                       now: Instant, worktreeHead: Option<Sha>)
    ensures D.CheckExecution(db, preview, approvalId, automationDisabled, now, worktreeHead).Ok? <==>
              IsJustified(db, preview, approvalId, automationDisabled, now, worktreeHead)
  {
    CurrentIsFresh(db, preview, worktreeHead);
    PreviewedExactly(db, preview.taskId, preview.action, worktreeHead);
    DemandIsTheActions(preview.action.action);
    RemoteCapabilityAllowedExactly(automationDisabled, preview.action.ActionCapability(), preview.fingerprint,
                                   LiveApproval(db, approvalId), now);
  }

  /** What a claim leaves: its row is pending, and a merge or enqueue takes its task from the gate to merging. */
  predicate Claims(before: Db, after: Db, preview: D.DeliveryPreview, now: Instant)
    requires preview.taskId in before.tasks
  {
    var key, task := preview.action.IdempotencySha256(), before.tasks[preview.taskId];
    && key in after.deliveries && after.deliveries[key].result.Pending? && !after.deliveries[key].completed
    && after.deliveries == before.deliveries[key := after.deliveries[key]]
    && if preview.action.action.MergePullRequest? || preview.action.action.EnqueuePullRequest? then
         && task.state.AwaitingMergeApproval?
         && after.deliveries[key].taskId == Some(task.id)
         && after.tasks == before.tasks[task.id := Moved(task, Merging, now)]
       else after.tasks == before.tasks && after.timeline == before.timeline
  }

  lemma ClaimLeaves(db: Db, preview: D.DeliveryPreview, now: Instant)
    requires preview.taskId in db.tasks && db.tasks[preview.taskId].state == DemandOf(preview.action.action).gate
    requires Claimable(db.deliveries, preview.action.IdempotencySha256())
    ensures Claims(db, ClaimDelivery(db, preview.action.IdempotencySha256(), D.ClaimEvent(db, preview, now), now), preview, now)
  {
    var key, event := preview.action.IdempotencySha256(), D.ClaimEvent(db, preview, now);
    var row := ClaimedRow(db.deliveries, key, if event.Some? then Some(event.value.id) else None, now);
    assert ClaimDelivery(db, key, event, now).deliveries == db.deliveries[key := row];
  }

  /** A claim goes through exactly when it is justified and its key is free or definitely failed. */
  lemma AuthorizedExactly(db: Db, preview: D.DeliveryPreview, approvalId: ApprovalId, automationDisabled: bool,
                          now: Instant, worktreeHead: Option<Sha>)
    ensures var r := D.AuthorizeExecution(db, preview, approvalId, automationDisabled, now, worktreeHead);
            var key := preview.action.IdempotencySha256();
            && (r.Ok? <==> IsJustified(db, preview, approvalId, automationDisabled, now, worktreeHead)
                           && (key in db.deliveries ==> db.deliveries[key].result.Failed?))
            && (r.Ok? ==>
                  && preview.taskId in db.tasks
                  && r.value == ClaimDelivery(db, key, D.ClaimEvent(db, preview, now), now)
                  && Claims(db, r.value, preview, now))
  {
    CheckedExactly(db, preview, approvalId, automationDisabled, now, worktreeHead);
    if D.AuthorizeExecution(db, preview, approvalId, automationDisabled, now, worktreeHead).Ok? {
      ClaimLeaves(db, preview, now);
    }
  }

  // ----- Results -----

  /** The task walked these states, one version each, and nothing else about tasks changed. */
  predicate Walked(before: Db, after: Db, task: Task, states: seq<TaskState>, now: Instant) {
    if states == [] then after.tasks == before.tasks && after.timeline == before.timeline
    else
      && after.tasks == before.tasks[task.id := Moved(task, Last(states), now)]
      && after.timeline == before.timeline[task.id := History(before.timeline, task.id)
                                             + seq(|states|, i requires 0 <= i < |states| => Moved(task, states[i], now))]
  }

  /** Only tasks, timelines, approvals and deliveries differ. */
  predicate KeepsRest(before: Db, after: Db) {
    after == before.(tasks := after.tasks, timeline := after.timeline, approvals := after.approvals,
                     deliveries := after.deliveries)
  }

  predicate OnlyRow(before: Db, after: Db, key: Key, result: DeliveryResult)
    requires key in before.deliveries
  {
    after.deliveries == before.deliveries[key :=
      before.deliveries[key].(result := result, completed := result.Failed? || result.Succeeded?)]
  }

  /** Saving the versions of a walk is walking. */
  lemma SavingWalks(before: Db, db: Db, task: Task, states: seq<TaskState>, now: Instant)
    requires db.tasks == before.tasks && db.timeline == before.timeline
    ensures var after := SaveVersions(db, task.id, Versions(task, states, now));
            Walked(before, after, task, states, now) && after.deliveries == db.deliveries && after.approvals == db.approvals
    ensures KeepsRest(before, db) ==> KeepsRest(before, SaveVersions(db, task.id, Versions(task, states, now)))
  {
    if states != [] {
      assert Versions(task, states, now) == seq(|states|, i requires 0 <= i < |states| => Moved(task, states[i], now));
    }
  }

  /** The states that a success takes its task through, action by action. */
  function Ahead(action: GitHubAction, merged: bool, state: TaskState): seq<TaskState> {
    match action
    case DraftPullRequest(_, _, _, _, _, _) => ToMonitoring(state)
    case Review(_, _, _, _, _) => ToMonitoring(state)
    case UpdatePullRequestBranch(_, _) => ToMonitoring(state)
    case ReadyPullRequest(_, _) => ToMonitoring(state)
    case CloseIssue(_) => ToCompleted(state)
    case ClosePullRequest(_, _) => ToCompleted(state)
    case MergePullRequest(_, _, _) => if merged && state.Merging? then [Completed] else []
    case CreateBranch(_, _) => []
    case PushIntent(_, _) => []
    case PostComment(_, _) => []
    case ResolveReviewThread(_, _, _) => []
    case CheckRun(_, _, _, _) => []
    case EnqueuePullRequest(_, _) => []
  }

  function ToMonitoring(state: TaskState): seq<TaskState> {
    match state
    case AwaitingDeliveryApproval => [Delivering, TaskState.Monitoring]
    case Delivering => [TaskState.Monitoring]
    case _ => []
  }

  function ToCompleted(state: TaskState): seq<TaskState> {
    match state
    case AwaitingDeliveryApproval => [Delivering, TaskState.Monitoring, Completed]
    case Delivering => [TaskState.Monitoring, Completed]
    case Monitoring => [Completed]
    case _ => []
  }

  /** What a success leaves: the row, and the task where its action brings it. */
  predicate Succeeds(before: Db, after: Db, task: Task, action: GitHubAction, key: Key, merged: bool, now: Instant)
    requires key in before.deliveries
  {
    && KeepsRest(before, after)
    && Walked(before, after, task, Ahead(action, merged, task.state), now)
    && OnlyRow(before, after, key, DeliveryResult.Succeeded(merged)) && after.approvals == before.approvals
  }

  lemma AheadIsThePath(action: GitHubAction, merged: bool, state: TaskState)
    ensures D.SuccessPath(action.ActionCapability(), merged, state) == Ahead(action, merged, state)
  {
    assert [Delivering, TaskState.Monitoring] + [Completed] == [Delivering, TaskState.Monitoring, Completed];
  }

  /** Creating, reviewing, updating or readying a pull request brings its task to monitoring, closing
      completes it, a confirmed merge completes a merging task, and nothing else moves any task. */
  lemma SuccessExactly(db: Db, preview: D.DeliveryPreview, key: Key, merged: bool, now: Instant)
    requires preview.taskId in db.tasks && key in db.deliveries
    ensures var after := D.CompleteSuccessful(db, preview, key, merged, now);
            Succeeds(db, after, db.tasks[preview.taskId], preview.action.action, key, merged, now)
  {
    var task := db.tasks[preview.taskId];
    AheadIsThePath(preview.action.action, merged, task.state);
    SavingWalks(db, RecordDelivery(db, key, DeliveryResult.Succeeded(merged)), task,
                Ahead(preview.action.action, merged, task.state), now);
  }

  predicate WorksOnPullRequest(action: GitHubAction) {
    action.DraftPullRequest? || action.Review? || action.UpdatePullRequestBranch? || action.ReadyPullRequest?
  }

  predicate ClosesItem(action: GitHubAction) { action.CloseIssue? || action.ClosePullRequest? }

  /** Where a success leaves its task. */
  predicate SuccessLeaves(before: Db, after: Db, task: Task, action: GitHubAction, merged: bool) {
    if WorksOnPullRequest(action) && task.state in {AwaitingDeliveryApproval, Delivering} then
      task.id in after.tasks && after.tasks[task.id].state.Monitoring?
    else if ClosesItem(action) && task.state in {AwaitingDeliveryApproval, Delivering, TaskState.Monitoring} then
      task.id in after.tasks && after.tasks[task.id].state.Completed?
    else if action.MergePullRequest? && merged && task.state.Merging? then
      task.id in after.tasks && after.tasks[task.id].state.Completed?
    else after.tasks == before.tasks && after.timeline == before.timeline
  }

  lemma SucceedsLeaves(before: Db, after: Db, task: Task, action: GitHubAction, merged: bool, now: Instant)
    requires Walked(before, after, task, Ahead(action, merged, task.state), now)
    ensures SuccessLeaves(before, after, task, action, merged)
  {
  }

  lemma SuccessOutcome(db: Db, preview: D.DeliveryPreview, key: Key, merged: bool, now: Instant)
    requires preview.taskId in db.tasks && key in db.deliveries
    ensures SuccessLeaves(db, D.CompleteSuccessful(db, preview, key, merged, now), db.tasks[preview.taskId],
                          preview.action.action, merged)
  {
    SuccessExactly(db, preview, key, merged, now);
    SucceedsLeaves(db, D.CompleteSuccessful(db, preview, key, merged, now), db.tasks[preview.taskId],
                   preview.action.action, merged, now);
  }

  /** What a definite failure does: a merging task returns to its gate and loses every approval given
      before, in all other cases only the row changes. */
  predicate Fails(before: Db, after: Db, task: Task, action: GitHubAction, key: Key, now: Instant)
    requires key in before.deliveries
  {
    && KeepsRest(before, after)
    && OnlyRow(before, after, key, DeliveryResult.Failed)
    && if (action.MergePullRequest? || action.EnqueuePullRequest?) && task.state.Merging? then
         && Walked(before, after, task, [AwaitingMergeApproval], now)
         && after.approvals.Keys == before.approvals.Keys
         && forall a :: a in before.approvals ==>
              after.approvals[a] == if before.approvals[a].approval.fingerprint.taskId == task.id
                                    then ApprovalRow(before.approvals[a].approval, true) else before.approvals[a]
       else Walked(before, after, task, [], now) && after.approvals == before.approvals
  }

  lemma FailureExactly(db: Db, preview: D.DeliveryPreview, key: Key, now: Instant)
    requires preview.taskId in db.tasks && key in db.deliveries
    ensures var after := D.CompleteFailed(db, preview, key, now);
            Fails(db, after, db.tasks[preview.taskId], preview.action.action, key, now)
  {
    var task := db.tasks[preview.taskId];
    var recorded := InvalidateTaskApprovals(RecordDelivery(db, key, DeliveryResult.Failed), task.id);
    SavingWalks(db, recorded, task, [AwaitingMergeApproval], now);
    assert Versions(task, [AwaitingMergeApproval], now) == [Moved(task, AwaitingMergeApproval, now)];
  }
}
