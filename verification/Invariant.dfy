/** What holds in every reachable state, one predicate per group of tables. */
module Invariant {
  import opened Base
  import opened Sources
  import opened Domain
  import opened Contract
  import opened Capabilities
  import opened GitHubActions
  import opened Policy
  import opened Tables
  import opened Protocol
  import opened TimelineProofs
  import D = DeliverySpec
  import L = LifecycleSpec
  import M = Monitoring

  // ----- Contracts -----

  ghost predicate Fits(task: Task, contract: TaskContract) {
    && contract.taskId == task.id
    && contract.source == task.source
    && task.bindingId == Some(contract.bindingId)
    && BindsPullRequestShas(contract.source, contract.baseSha, contract.headSha)
    && contract.verificationCommands != []
  }

  /** Every task past its discovery has the contract it was planned with. */
  ghost predicate PlannedInv(tasks: map<TaskId, Task>, contracts: map<TaskId, TaskContract>) {
    forall id :: id in tasks && !tasks[id].state.Discovered? ==> id in contracts && Fits(tasks[id], contracts[id])
  }

  // ----- Monitors and the merge gate -----

  /** A pull-request task is monitored under exactly the identity its source captured. */
  ghost predicate Targets(source: TaskSource, monitor: M.Monitor) {
    source.GitHubPullRequest? ==>
      && monitor.expectedHeadSha == source.headSha && monitor.expectedBaseSha == source.baseSha
      && monitor.pullRequestNumber == source.number && monitor.repositoryFullName == source.repositoryFullName
  }

  ghost predicate MonitorRowInv(tasks: map<TaskId, Task>, id: MonitorId, row: MonitorRow) {
    && row == RowOf(row.payload)
    && row.payload.id == id
    && M.Sound(row.payload)
    && row.payload.taskId in tasks
    && Targets(tasks[row.payload.taskId].source, row.payload)
  }

  ghost predicate MonitorInv(tasks: map<TaskId, Task>, monitors: map<MonitorId, MonitorRow>) {
    forall id :: id in monitors ==> MonitorRowInv(tasks, id, monitors[id])
  }

  ghost predicate AtMergeGate(state: TaskState) { state.AwaitingMergeApproval? || state.Merging? }

  ghost predicate OpenedBy(monitors: map<MonitorId, MonitorRow>, taskId: TaskId, monitorId: MonitorId) {
    && monitorId in monitors
    && monitors[monitorId].payload.taskId == taskId
    && M.ProvesGreen(monitors[monitorId].payload)
  }

  ghost predicate GateInv(tasks: map<TaskId, Task>, monitors: map<MonitorId, MonitorRow>, gate: map<TaskId, MonitorId>) {
    && (forall id :: id in gate ==> id in tasks && OpenedBy(monitors, id, gate[id]))
    && (forall id :: id in tasks && AtMergeGate(tasks[id].state) ==> id in gate)
  }

  // ----- Deliveries -----

  ghost predicate MergingOrCompleted(state: TaskState) { state.Merging? || state.Completed? }

  ghost predicate RowInv(tasks: map<TaskId, Task>, claim: map<TaskId, Key>, key: Key, row: DeliveryRow) {
    && (row.taskId.Some? <==> IsMergeKey(key))
    && (row.completed <==> !row.result.IsUnresolved())
    && (row.taskId.Some? && row.result.IsUnresolved() ==>
          var id := row.taskId.value;
          id in tasks && MergingOrCompleted(tasks[id].state) && id in claim && claim[id] == key)
  }

  ghost predicate HoldsClaim(deliveries: map<Key, DeliveryRow>, claim: map<TaskId, Key>, id: TaskId) {
    && id in claim && claim[id] in deliveries
    && deliveries[claim[id]].taskId == Some(id)
    && !deliveries[claim[id]].result.Failed?
  }

  /** Rows and tasks agree: an unresolved merge row belongs to a merging or completed task whose only
      such row it is, and a merging task has a row that has not failed. */
  ghost predicate DeliveryInv(tasks: map<TaskId, Task>, deliveries: map<Key, DeliveryRow>, claim: map<TaskId, Key>) {
    && (forall key :: key in deliveries ==> RowInv(tasks, claim, key, deliveries[key]))
    && (forall id :: id in tasks && tasks[id].state.Merging? ==> HoldsClaim(deliveries, claim, id))
  }

  ghost predicate ExecRowInv(tasks: map<TaskId, Task>, deliveries: map<Key, DeliveryRow>, exec: Exec) {
    && exec.key in deliveries
    && deliveries[exec.key].result.Pending?
    && exec.key == exec.preview.action.IdempotencySha256()
    && exec.preview.taskId in tasks
    && (IsMergeKey(exec.key) ==> deliveries[exec.key].taskId == Some(exec.preview.taskId))
  }

  /** Every executor in flight owns its own pending row. */
  ghost predicate ExecInv(tasks: map<TaskId, Task>, deliveries: map<Key, DeliveryRow>, execs: map<HandlerId, Exec>) {
    && (forall h :: h in execs ==> ExecRowInv(tasks, deliveries, execs[h]))
    && (forall h, g :: h in execs && g in execs && execs[h].key == execs[g].key ==> h == g)
  }

  // ----- The delivery log -----

  /** What the log says about a key: nothing, or its latest claim or result. */
  ghost function Status(log: seq<Event>, key: Key): Option<DeliveryResult> {
    if log == [] then None
    else match Last(log)
      case DeliveryClaimed(k, _, _) => if k == key then Some(DeliveryResult.Pending) else Status(log[..|log| - 1], key)
      case DeliveryRecorded(k, result) => if k == key then Some(result) else Status(log[..|log| - 1], key)
      case _ => Status(log[..|log| - 1], key)
  }

  /** A key is claimed when free or failed; a result is recorded for a pending or an ambiguous claim. */
  ghost predicate LegalNext(log: seq<Event>, event: Event) {
    match event
    case DeliveryClaimed(key, _, _) => Status(log, key) in {None, Some(DeliveryResult.Failed)}
    case DeliveryRecorded(key, result) =>
      && Status(log, key) in {Some(DeliveryResult.Pending), Some(Ambiguous)}
      && (result.Ambiguous? ==> Status(log, key) == Some(DeliveryResult.Pending))
      && !result.Pending?
    case _ => true
  }

  ghost predicate LegalLog(log: seq<Event>) {
    forall i :: 0 <= i < |log| ==> LegalNext(log[..i], log[i])
  }

  ghost predicate LogInv(log: seq<Event>, deliveries: map<Key, DeliveryRow>) {
    && LegalLog(log)
    && forall key :: Status(log, key) == if key in deliveries then Some(deliveries[key].result) else None
  }

  // ----- Merge approvals -----

  ghost predicate IsMergeClaim(event: Event) {
    event.DeliveryClaimed? && IsMergeKey(event.key)
  }

  /** A merge claim left its approval spent: invalidated, or of a task that no longer waits for one. It
      named its task's pull request and head SHA, and the merge gate had been opened for it. */
  ghost predicate MergeClaimInv(tasks: map<TaskId, Task>, approvals: map<ApprovalId, ApprovalRow>,
                          gate: map<TaskId, MonitorId>, event: Event)
    requires event.DeliveryClaimed?
  {
    && event.taskId in tasks && event.taskId in gate
    && event.approvalId in approvals
    && approvals[event.approvalId].approval.fingerprint.taskId == event.taskId
    && (approvals[event.approvalId].invalidated || MergingOrCompleted(tasks[event.taskId].state))
    && NamesPullRequest(event.key, tasks[event.taskId].source)
  }

  /** The key addresses the very pull request, at the very head, that the source captured. */
  ghost predicate NamesPullRequest(key: Key, source: TaskSource) {
    && source.GitHubPullRequest?
    && key.remote.repositoryFullName == source.repositoryFullName
    && key.action.PullRequestNumber() == Some(source.number)
    && key.action.ExpectedHeadSha() == Some(source.headSha)
  }

  ghost predicate MergeOnceInv(tasks: map<TaskId, Task>, approvals: map<ApprovalId, ApprovalRow>,
                         gate: map<TaskId, MonitorId>, log: seq<Event>)
  {
    && (forall i :: 0 <= i < |log| && IsMergeClaim(log[i]) ==> MergeClaimInv(tasks, approvals, gate, log[i]))
    && (forall i, j :: 0 <= i < j < |log| && IsMergeClaim(log[i]) && IsMergeClaim(log[j]) ==>
          log[i].approvalId != log[j].approvalId)
  }

  // ----- Justifications -----

  /** A delivery claim carried the approval's own fingerprint, taken over its task's contract, and the
      remote identity of its task's binding. */
  ghost predicate JustifiedClaim(tasks: map<TaskId, Task>, contracts: map<TaskId, TaskContract>,
                                 bindings: map<BindingId, RepositoryBinding>, approvals: map<ApprovalId, ApprovalRow>,
                                 event: Event)
    requires event.DeliveryClaimed?
  {
    && event.taskId in tasks && !tasks[event.taskId].state.Discovered?
    && event.taskId in contracts
    && contracts[event.taskId].bindingId in bindings
    && D.RemoteMatches(event.key.remote, bindings[contracts[event.taskId].bindingId])
    && event.approvalId in approvals
    && approvals[event.approvalId].approval.fingerprint ==
         D.FingerprintOf(event.taskId, PreviewOf(event.key), contracts[event.taskId])
    && approvals[event.approvalId].approval.class_ == RequiredClass(event.key.action.ActionCapability())
  }

  function PreviewOf(key: Key): GitHubActionPreview {
    GitHubActionPreview(key.remote, key.action, key.precondition)
  }

  ghost predicate JustifiedInv(tasks: map<TaskId, Task>, contracts: map<TaskId, TaskContract>,
                               bindings: map<BindingId, RepositoryBinding>, approvals: map<ApprovalId, ApprovalRow>,
                               log: seq<Event>)
  {
    forall i :: 0 <= i < |log| && log[i].DeliveryClaimed? ==> JustifiedClaim(tasks, contracts, bindings, approvals, log[i])
  }

  // ----- Preparations -----

  ghost predicate PrepRowInv(tasks: map<TaskId, Task>, claims: map<ApprovalId, ClaimRow>, prep: Prep) {
    && prep.approvalId in claims
    && claims[prep.approvalId].result.Active?
    && claims[prep.approvalId].taskId == prep.preview.taskId
    && (prep.phase.Read? ==>
          && prep.phase.task.id == prep.preview.taskId
          && prep.preview.taskId in tasks && tasks[prep.preview.taskId] == prep.phase.task
          && prep.phase.task.state.AwaitingPreparationApproval?)
  }

  ghost predicate OneActiveClaimPerTask(claims: map<ApprovalId, ClaimRow>) {
    forall a, b :: a in claims && b in claims && claims[a].result.Active? && claims[b].result.Active? ==>
      claims[a].taskId == claims[b].taskId ==> a == b
  }

  ghost predicate PrepInv(tasks: map<TaskId, Task>, claims: map<ApprovalId, ClaimRow>, preps: map<HandlerId, Prep>) {
    && (forall h :: h in preps ==> PrepRowInv(tasks, claims, preps[h]))
    && (forall h, g :: h in preps && g in preps && preps[h].approvalId == preps[g].approvalId ==> h == g)
    && OneActiveClaimPerTask(claims)
  }

  ghost predicate PrepLogInv(claims: map<ApprovalId, ClaimRow>, log: seq<Event>) {
    && (forall i :: 0 <= i < |log| && log[i].PreparationClaimed? ==> log[i].approvalId in claims)
    && (forall i, j :: 0 <= i < j < |log| && log[i].PreparationClaimed? && log[j].PreparationClaimed? ==>
          log[i].approvalId != log[j].approvalId)
  }

  // ----- Verification evidence -----

  /** States a task reaches only through a successful verification. */
  ghost predicate PastVerification(state: TaskState) {
    state in {Reviewing, AwaitingDeliveryApproval, Delivering, TaskState.Monitoring, AwaitingMergeApproval, Merging, Completed}
  }

  ghost predicate AllTrue(outcomes: seq<bool>) {
    forall i :: 0 <= i < |outcomes| ==> outcomes[i]
  }

  ghost predicate RunInv(tasks: map<TaskId, Task>, contracts: map<TaskId, TaskContract>, live: bool, run: VerificationRun) {
    && run.task.id in tasks
    && run.task.state.Verifying?
    && !tasks[run.task.id].state.Discovered?
    && run.task.id in contracts && contracts[run.task.id].verificationCommands == run.commands
    && |run.outcomes| <= |run.commands|
    && (forall i :: 0 <= i < |run.outcomes| - 1 ==> run.outcomes[i])
    && (live ==> AllTrue(run.outcomes))
  }

  /** The evidence table holds exactly what the runs produced, numbered from one. */
  ghost predicate EvidenceRowsInv(evidence: map<EvidenceKey, VerificationEvidence>, runs: map<RunId, VerificationRun>) {
    forall key: EvidenceKey ::
      && (key in evidence <==>
            && key.runId in runs && runs[key.runId].task.id == key.taskId
            && 1 <= key.ordinal <= |runs[key.runId].outcomes|)
      && (key in evidence && key.runId in runs && 1 <= key.ordinal <= |runs[key.runId].outcomes| <= |runs[key.runId].commands| ==>
            evidence[key] == VerificationEvidence(runs[key.runId].commands[key.ordinal - 1],
                                                  runs[key.runId].outcomes[key.ordinal - 1]))
  }

  ghost predicate PassedInv(runs: map<RunId, VerificationRun>, live: set<RunId>, id: TaskId, runId: RunId) {
    && runId in runs && runId !in live
    && runs[runId].task.id == id
    && |runs[runId].outcomes| == |runs[runId].commands|
    && AllTrue(runs[runId].outcomes)
  }

  ghost predicate VerifiedInv(tasks: map<TaskId, Task>, runs: map<RunId, VerificationRun>, live: set<RunId>,
                        passed: map<TaskId, RunId>)
  {
    && (forall id :: id in passed ==> id in tasks && PastVerification(tasks[id].state) && PassedInv(runs, live, id, passed[id]))
    && (forall id :: id in tasks && PastVerification(tasks[id].state) ==> id in passed)
  }

  ghost predicate RunsInv(tasks: map<TaskId, Task>, contracts: map<TaskId, TaskContract>, runs: map<RunId, VerificationRun>,
                    live: set<RunId>)
  {
    && live <= runs.Keys
    && forall r :: r in runs ==> RunInv(tasks, contracts, r in live, runs[r])
  }

  ghost predicate VerifyLogInv(passed: map<TaskId, RunId>, log: seq<Event>) {
    && (forall i :: 0 <= i < |log| && log[i].VerificationCommitted? ==> log[i].taskId in passed && passed[log[i].taskId] == log[i].runId)
    && (forall i, j :: 0 <= i < j < |log| && log[i].VerificationCommitted? && log[j].VerificationCommitted? ==>
          log[i].taskId != log[j].taskId)
  }

  // ----- Plans -----

  /** What a planning handler holds was read while its task was discovered. */
  ghost predicate PlansInv(plans: map<HandlerId, L.PlanJob>) {
    forall h :: h in plans ==> plans[h].task.state.Discovered?
  }

  // ----- All of it -----

  datatype Part =
    | Timelines | Contracts | Monitors | Gates | Deliveries | Executors | DeliveryLog | MergeClaims | Justifications
    | Preparations | PreparationLog | Runs | Evidence | Verified | VerificationLog | Plans

  ghost predicate Holds(part: Part, s: Sys) {
    match part
    case Timelines => TimelineInv(s.db.tasks, s.db.timeline)
    case Contracts => PlannedInv(s.db.tasks, s.db.contracts)
    case Monitors => MonitorInv(s.db.tasks, s.db.monitors)
    case Gates => GateInv(s.db.tasks, s.db.monitors, s.mergeGate)
    case Deliveries => DeliveryInv(s.db.tasks, s.db.deliveries, s.mergeClaim)
    case Executors => ExecInv(s.db.tasks, s.db.deliveries, s.execs)
    case DeliveryLog => LogInv(s.log, s.db.deliveries)
    case MergeClaims => MergeOnceInv(s.db.tasks, s.db.approvals, s.mergeGate, s.log)
    case Justifications => JustifiedInv(s.db.tasks, s.db.contracts, s.db.bindings, s.db.approvals, s.log)
    case Preparations => PrepInv(s.db.tasks, s.db.claims, s.preps)
    case PreparationLog => PrepLogInv(s.db.claims, s.log)
    case Runs => RunsInv(s.db.tasks, s.db.contracts, s.runs, s.live)
    case Evidence => EvidenceRowsInv(s.db.evidence, s.runs)
    case Verified => VerifiedInv(s.db.tasks, s.runs, s.live, s.passed)
    case VerificationLog => VerifyLogInv(s.passed, s.log)
    case Plans => PlansInv(s.plans)
  }

  ghost predicate Inv(s: Sys) {
    forall part :: Holds(part, s)
  }
}
