/** Planning, preparation, verification and monitor handlers on a live store. */
module WorkHandlers {
  import opened Base
  import opened Sources
  import opened Domain
  import opened Contract
  import opened Capabilities
  import opened GitHubActions
  import opened Policy
  import opened Tables
  import opened Store
  import L = LifecycleSpec
  import MonitorRules
  import PreparationRules
  import M = Monitoring

  /** One edge, saved in its own transaction. */
  method Advance(store: EventStore, task: TaskRecord, next: TaskState, now: Instant)
    requires task.state.Permits(next)
    modifies store, task
    ensures task.Value() == Moved(old(task.Value()), next, now)
    ensures store.Contents() == SaveTask(old(store.Contents()), task.Value())
  {
    var _ := task.Transition(next, now);
    store.PutTask(task.Value());
  }

  // ----- Planning -----

  datatype PlanError = TaskMissing | TaskChanged

  /** Commits a plan only onto the very task that was read before the repository was inspected. */
  method CommitPlan(store: EventStore, job: L.PlanJob, contract: TaskContract, now: Instant)
    returns (r: Result<Task, PlanError>)
    requires job.task.state.Discovered?
    modifies store
    ensures r.Ok? <==> job.task.id in old(store.tasks) && old(store.tasks)[job.task.id] == job.task
    ensures r.Ok? ==> store.Contents() == L.PlanCommit(old(store.Contents()), job, contract, now, 4)
    ensures r.Ok? ==> r.value.state.AwaitingPreparationApproval? && job.task.id in store.tasks && store.tasks[job.task.id] == r.value
    ensures r.Err? ==> store.Contents() == old(store.Contents())
  {
    var current := store.LoadTask(job.task.id);
    if current.None? {
      return Err(PlanError.TaskMissing);
    }
    if current.value != job.task {
      return Err(TaskChanged);
    }
    var task := new TaskRecord(job.task);
    task.contractVersion := contract.version;
    ghost var planned := task.Value();
    store.SaveTaskContract(contract);
    ghost var contracted := store.Contents();
    ghost var versions := Versions(planned, L.PLAN_PATH, now);
    for i := 0 to |L.PLAN_PATH|
      invariant store.Contents() == SaveVersions(contracted, planned.id, versions[..i])
      invariant task.Value() == if i == 0 then planned else versions[i - 1]
    {
      Advance(store, task, L.PLAN_PATH[i], now);
      assert task.Value() == versions[i];
      SaveOneMore(contracted, planned.id, versions, i);
    }
    return Ok(task.Value());
  }

  // ----- Preparation -----

  method ApprovePreparation(store: EventStore, preview: L.PreparationPreview, id: ApprovalId, approvedBy: string, now: Instant)
    returns (r: Result<(), L.PreparationError>)
    modifies store
    ensures var spec := L.ApprovePreparation(old(store.Contents()), preview, id, approvedBy, now);
            && (r.Ok? <==> spec.Ok?)
            && (r.Ok? ==> store.Contents() == spec.value)
            && (r.Err? ==> store.Contents() == old(store.Contents()) && r.error == spec.error)
  {
    var current := L.PreviewPreparation(store.Contents(), preview.taskId);
    if current.Err? {
      return Err(current.error);
    }
    if current.value != preview {
      return Err(L.PreparationError.PreviewStale);
    }
    if !CanApprove(ApprovalClass.Preparation, PrepareWorktree, preview.fingerprint, approvedBy, now, now + APPROVAL_DURATION) {
      return Err(L.PreparationError.ApprovalInvalid);
    }
    store.PutApproval(Approval(id, ApprovalClass.Preparation, PrepareWorktree, preview.fingerprint, Trim(approvedBy), now,
                               now + APPROVAL_DURATION));
    return Ok(());
  }

  method AuthorizePreparation(store: EventStore, preview: L.PreparationPreview, approvalId: ApprovalId,
                              automationDisabled: bool, now: Instant, claimedAt: Instant)
    returns (r: Result<(), L.PreparationError>)
    modifies store
    ensures var spec := L.AuthorizePreparation(old(store.Contents()), preview, approvalId, automationDisabled, now, claimedAt);
            && (r.Ok? <==> spec.Ok?)
            && (r.Ok? ==> store.Contents() == spec.value)
            && (r.Err? ==> store.Contents() == old(store.Contents()) && r.error == spec.error)
    ensures r.Ok? ==> approvalId !in old(store.claims) && IsActiveClaim(store.Contents(), approvalId)
    ensures r.Ok? <==>
              PreparationRules.MayPrepare(old(store.Contents()), preview, approvalId, automationDisabled, now, claimedAt)
  {
    PreparationRules.AuthorizedExactly(store.Contents(), preview, approvalId, automationDisabled, now, claimedAt);
    var current := L.PreviewPreparation(store.Contents(), preview.taskId);
    if current.Err? {
      return Err(current.error);
    }
    if current.value != preview {
      return Err(L.PreparationError.PreviewStale);
    }
    var approval := store.LoadApproval(approvalId);
    if approval.None? {
      return Err(L.PreparationError.ApprovalMissing);
    }
    match Authorize(automationDisabled, PrepareWorktree, preview.fingerprint, approval, now) {
      case Allowed =>
      case ApprovalRequired => return Err(L.PreparationError.ApprovalInvalid);
      case Denied => return Err(L.PreparationError.PolicyDenied);
    }
    var outcome := store.ClaimPreparation(approvalId, preview.taskId, preview.fingerprint, claimedAt);
    match outcome {
      case Claimed => return Ok(());
      case ApprovalUnavailable => return Err(L.PreparationError.ApprovalInvalid);
      case AlreadyClaimed => return Err(L.PreparationError.ApprovalAlreadyUsed);
      case TaskInProgress => return Err(L.PreparationError.TaskInProgress);
    }
  }

  /** The last section of a preparation: the copy read earlier is changed and saved unguarded. */
  method SavePrepared(store: EventStore, copy: Task, preview: L.PreparationPreview, checkpointId: CheckpointId, now: Instant)
    returns (r: Result<Task, ValidationError>)
    modifies store
    ensures r.Ok? <==> copy.state.AwaitingPreparationApproval?
    ensures r.Ok? ==> store.Contents() == SaveTask(old(store.Contents()), L.PreparedTask(copy, preview, checkpointId, now))
    ensures r.Err? ==> store.Contents() == old(store.Contents())
  {
    var task := new TaskRecord(copy);
    task.repositoryPath := preview.worktreePath;
    var moved := task.Transition(Preparing, now);
    if moved.Err? {
      return Err(moved.error);
    }
    task.checkpointId := Some(checkpointId);
    store.PutTask(task.Value());
    return Ok(task.Value());
  }

  // ----- Verification -----

  datatype VerificationError =
    | MissingTask | InvalidState(state: TaskState) | MissingContract | EmptyVerificationPlan
    | CommandFailed(ordinal: nat) | StaleResult | Persistence

  datatype VerificationStart = AlreadyVerified(verified: Task) | Started(task: Task, commands: seq<VerificationCommand>)

  /** The saved stages between preparing and verifying; other states are left alone. */
  method EnterVerification(store: EventStore, task: TaskRecord, now: Instant)
    modifies store, task
    ensures var value := old(task.Value());
            var versions := Versions(value, L.VerifyEntryPath(value.state), now);
            && store.Contents() == SaveVersions(old(store.Contents()), value.id, versions)
            && task.Value() == if versions == [] then value else Last(versions)
  {
    var entered := task.state.Preparing?;
    if task.state.Preparing? {
      Advance(store, task, Implementing, now);
    }
    ghost var implementing := task.Value();
    if task.state.Implementing? {
      Advance(store, task, Verifying, now);
      if entered {
        SaveTwo(old(store.Contents()), implementing, task.Value());
      }
    }
    ghost var versions := Versions(old(task.Value()), L.VerifyEntryPath(old(task.state)), now);
    assert versions == if entered then [implementing, task.Value()] else if versions == [] then [] else [task.Value()];
  }

  /** Enters the verifying state in saved stages, then looks up what there is to run. */
  method BeginVerification(store: EventStore, taskId: TaskId, now: Instant) returns (r: Result<VerificationStart, VerificationError>)
    modifies store
    ensures L.CanVerify(old(store.Contents()), taskId) ==>
              store.Contents() == L.VerifyEntry(old(store.Contents()), taskId, now,
                                                |L.VerifyEntryPath(old(store.tasks)[taskId].state)|)
    ensures !L.CanVerify(old(store.Contents()), taskId) ==> store.Contents() == old(store.Contents())
    ensures r.Ok? && r.value.Started? ==>
              && L.CanVerify(old(store.Contents()), taskId) && r.value.task.state.Verifying?
              && taskId in store.contracts && r.value.commands == store.contracts[taskId].verificationCommands != []
    ensures r.Ok? && r.value.AlreadyVerified? <==>
              taskId in old(store.tasks) && old(store.tasks)[taskId].state.AwaitingDeliveryApproval?
  {
    var loaded := store.LoadTask(taskId);
    if loaded.None? {
      return Err(MissingTask);
    }
    if loaded.value.state.AwaitingDeliveryApproval? {
      return Ok(AlreadyVerified(loaded.value));
    }
    var task := new TaskRecord(loaded.value);
    ghost var versions := Versions(loaded.value, L.VerifyEntryPath(loaded.value.state), now);
    assert versions[..|versions|] == versions;
    EnterVerification(store, task, now);
    if !task.state.Verifying? {
      return Err(InvalidState(task.state));
    }
    if taskId !in store.contracts {
      return Err(MissingContract);
    }
    var commands := store.contracts[taskId].verificationCommands;
    if commands == [] {
      return Err(EmptyVerificationPlan);
    }
    return Ok(Started(task.Value(), commands));
  }

  /** How many commands run: all of them, or up to and including the first that fails. */
  function Executed(outcomes: seq<bool>): (n: nat)
    ensures n <= |outcomes|
    ensures forall i :: 0 <= i < n - 1 ==> outcomes[i]
    ensures n < |outcomes| ==> n > 0 && !outcomes[n - 1]
  {
    if outcomes == [] then 0
    else if !outcomes[0] then 1
    else 1 + Executed(outcomes[1..])
  }

  /** Evidence for the first n commands of a run, numbered from one. */
  function WithEvidence(evidence: map<EvidenceKey, VerificationEvidence>, taskId: TaskId, runId: RunId,
                        commands: seq<VerificationCommand>, outcomes: seq<bool>, n: nat): map<EvidenceKey, VerificationEvidence>
    requires n <= |commands| && n <= |outcomes|
  {
    if n == 0 then evidence
    else WithEvidence(evidence, taskId, runId, commands, outcomes, n - 1)
           [EvidenceKey(taskId, runId, n) := VerificationEvidence(commands[n - 1], outcomes[n - 1])]
  }

  lemma {:induction false} EvidenceRows(evidence: map<EvidenceKey, VerificationEvidence>, taskId: TaskId, runId: RunId,
                                        commands: seq<VerificationCommand>, outcomes: seq<bool>, n: nat, key: EvidenceKey)
    requires n <= |commands| && n <= |outcomes|
    ensures var after := WithEvidence(evidence, taskId, runId, commands, outcomes, n);
            if key.taskId == taskId && key.runId == runId && 1 <= key.ordinal <= n then
              key in after && after[key] == VerificationEvidence(commands[key.ordinal - 1], outcomes[key.ordinal - 1])
            else (key in after <==> key in evidence) && (key in after ==> after[key] == evidence[key])
  {
    if n > 0 {
      EvidenceRows(evidence, taskId, runId, commands, outcomes, n - 1, key);
    }
  }

  lemma {:induction false} ExecutedIsFirstFailure(outcomes: seq<bool>, n: nat)
    requires n < |outcomes| && !outcomes[n] && forall i :: 0 <= i < n ==> outcomes[i]
    ensures Executed(outcomes) == n + 1
  {
  }

  lemma {:induction false} ExecutedAll(outcomes: seq<bool>)
    requires forall i :: 0 <= i < |outcomes| ==> outcomes[i]
    ensures Executed(outcomes) == |outcomes|
  {
  }

  /** Runs the commands in order and saves the evidence of each, stopping at the first that fails.
      `outcomes` is what each command would report. */
  method RunCommands(store: EventStore, taskId: TaskId, runId: RunId, commands: seq<VerificationCommand>, outcomes: seq<bool>)
    returns (r: Result<(), VerificationError>)
    requires |outcomes| == |commands|
    requires forall key :: key in store.evidence ==> key.runId != runId
    modifies store
    ensures store.Contents() == old(store.Contents()).(evidence :=
              WithEvidence(old(store.evidence), taskId, runId, commands, outcomes, Executed(outcomes)))
    ensures r.Ok? <==> forall i :: 0 <= i < |outcomes| ==> outcomes[i]
    ensures r.Err? ==> r.error == CommandFailed(Executed(outcomes))
  {
    for i := 0 to |commands|
      invariant forall j :: 0 <= j < i ==> outcomes[j]
      invariant store.Contents() == old(store.Contents()).(evidence :=
                  WithEvidence(old(store.evidence), taskId, runId, commands, outcomes, i))
    {
      EvidenceRows(old(store.evidence), taskId, runId, commands, outcomes, i, EvidenceKey(taskId, runId, i + 1));
      var _ := store.SaveVerificationEvidence(EvidenceKey(taskId, runId, i + 1), VerificationEvidence(commands[i], outcomes[i]));
      if !outcomes[i] {
        ExecutedIsFirstFailure(outcomes, i);
        return Err(CommandFailed(i + 1));
      }
    }
    ExecutedAll(outcomes);
    return Ok(());
  }

  /** Commits a verification only if the stored task is still the one the run started from. */
  method CommitVerification(store: EventStore, value: Task, checkpointId: CheckpointId, now: Instant)
    returns (r: Result<Task, VerificationError>)
    requires value.state.Verifying?
    modifies store
    ensures r.Ok? <==> value.id in old(store.tasks) && old(store.tasks)[value.id] == value
    ensures r.Ok? ==> store.Contents() == L.VerifyCommit(old(store.Contents()), value, checkpointId, now, 2)
    ensures r.Err? ==> store.Contents() == old(store.Contents()) && r.error == StaleResult
  {
    var current := store.LoadTask(value.id);
    if current != Some(value) {
      return Err(StaleResult);
    }
    ghost var before := store.Contents();
    var task := new TaskRecord(value);
    Advance(store, task, Reviewing, now);
    ghost var reviewing := task.Value();
    var _ := task.Transition(AwaitingDeliveryApproval, now);
    task.checkpointId := Some(checkpointId);
    store.PutTask(task.Value());
    SaveTwo(before, reviewing, task.Value());
    assert L.VerifiedVersions(value, checkpointId, now)[..2] == [reviewing, task.Value()];
    return Ok(task.Value());
  }

  // ----- Monitors -----

  datatype MonitorError = MonitorMissing | MonitorRejected

  method FindPullRequest(items: seq<WorkItem>, repositoryFullName: string, number: nat) returns (found: Option<WorkItem>)
    ensures found == L.FindPullRequest(items, repositoryFullName, number)
  {
    for i := 0 to |items|
      invariant L.FindPullRequest(items, repositoryFullName, number) == L.FindPullRequest(items[i..], repositoryFullName, number)
    {
      if items[i].kind.PullRequest? && items[i].repositoryFullName == repositoryFullName && items[i].number == number {
        return Some(items[i]);
      }
    }
    return None;
  }

  method StartMonitor(store: EventStore, id: MonitorId, request: L.MonitorStartRequest, now: Instant)
    returns (r: Result<M.Monitor, MonitorError>)
    modifies store
    ensures r.Ok? <==> L.CanStartMonitor(old(store.Contents()), request, now)
    ensures r.Ok? ==> store.Contents() == L.StartMonitor(old(store.Contents()), id, request, now)
    ensures r.Ok? <==> exists i :: MonitorRules.Startable(old(store.Contents()), request, now, i)
    ensures r.Ok? ==> id in store.monitors && store.monitors[id].payload == r.value
    ensures r.Err? ==> store.Contents() == old(store.Contents())
  {
    MonitorRules.StartedExactly(store.Contents(), request, now);
    var loaded := store.LoadTask(request.taskId);
    if loaded.None? || !loaded.value.state.Monitoring? || loaded.value.id !in store.contracts {
      return Err(MonitorRejected);
    }
    var task := loaded.value;
    var contract := store.contracts[task.id];
    if contract.source != task.source || task.bindingId != Some(contract.bindingId)
       || contract.bindingId !in store.bindings
       || store.bindings[contract.bindingId].fullName != request.repositoryFullName
       || !L.IsFreshSnapshot(store.Contents(), request.repositoryFullName, now)
    {
      return Err(MonitorRejected);
    }
    var row := store.snapshots[request.repositoryFullName];
    var item := FindPullRequest(row.snapshot.workItems, request.repositoryFullName, request.pullRequestNumber);
    if item.None? || !L.IsMonitorTarget(task, item.value, request)
       || !M.CanStart(request.repositoryFullName, request.pullRequestNumber, request.expectedHeadSha,
                      request.expectedBaseSha, request.repairBudget)
    {
      return Err(MonitorRejected);
    }
    var monitor := M.NewMonitor(id, request.taskId, request.repositoryFullName, request.pullRequestNumber,
                                request.expectedHeadSha, request.expectedBaseSha, row.syncedAt, request.repairBudget);
    store.PutMonitor(monitor);
    return Ok(monitor);
  }

  method LoadObservation(store: EventStore, monitor: M.Monitor, now: Instant) returns (observation: Option<M.RemoteObservation>)
    ensures observation == L.FreshObservation(store.Contents(), monitor, now)
  {
    if !L.IsFreshSnapshot(store.Contents(), monitor.repositoryFullName, now) {
      return None;
    }
    var row := store.snapshots[monitor.repositoryFullName];
    var item := FindPullRequest(row.snapshot.workItems, monitor.repositoryFullName, monitor.pullRequestNumber);
    return if item.None? then None else L.ObservationOf(item.value, row.syncedAt);
  }

  /** Saves a succeeded monitor together with its task's move to the merge gate. */
  method OpenGate(store: EventStore, monitor: M.Monitor, now: Instant) returns (moved: bool)
    modifies store
    ensures moved <==> L.CanOpenGate(old(store.Contents()), monitor.taskId)
    ensures moved ==>
              store.Contents() == SaveMonitorWithTaskEvent(old(store.Contents()), monitor,
                                                           Moved(old(store.tasks)[monitor.taskId], AwaitingMergeApproval, now))
    ensures !moved ==> store.Contents() == old(store.Contents())
  {
    var loaded := store.LoadTask(monitor.taskId);
    if loaded.None? || !loaded.value.state.Monitoring? {
      return false;
    }
    var task := new TaskRecord(loaded.value);
    var _ := task.Transition(AwaitingMergeApproval, now);
    var saved := store.PutMonitorWithTaskEvent(monitor, task.Value());
    return saved.Ok?;
  }

  /** Observes from the engine's own snapshot; a blocked or repairing outcome kills the task's approvals
      before it is saved, a success moves the task to the merge gate in the same transaction. */
  method ObserveMonitor(store: EventStore, id: MonitorId, now: Instant) returns (r: Result<M.MonitorOutcome, MonitorError>)
    modifies store
    ensures r.Ok? <==> L.CanObserveMonitor(old(store.Contents()), id, now)
    ensures r.Ok? ==> store.Contents() == L.ObserveMonitor(old(store.Contents()), id, now, true)
    ensures r.Err? ==> store.Contents() == old(store.Contents())
    ensures r.Ok? <==> exists i :: MonitorRules.Observable(old(store.Contents()), id, now, i)
    ensures forall i :: MonitorRules.Observable(old(store.Contents()), id, now, i) ==>
              MonitorRules.Ruled(old(store.Contents()), store.Contents(), id, now, i)
  {
    MonitorRules.ObservationIsRuled(store.Contents(), id, now);
    if id !in store.monitors {
      return Err(MonitorMissing);
    }
    var stored := store.monitors[id].payload;
    var observation := LoadObservation(store, stored, now);
    if observation.None? {
      return Err(MonitorRejected);
    }
    var monitor := new M.MonitorRecord.Load(stored);
    var observed := monitor.Observe(observation.value, now);
    if observed.Err? {
      return Err(MonitorRejected);
    }
    var outcome := observed.value;
    if outcome.invalidateApprovals {
      var _ := store.InvalidateApprovals(stored.taskId);
    }
    if outcome.state.Succeeded? {
      var moved := OpenGate(store, monitor.Value(), now);
      return if moved then Ok(outcome) else Err(MonitorRejected);
    }
    store.PutMonitor(monitor.Value());
    return Ok(outcome);
  }

  method WakeMonitor(store: EventStore, id: MonitorId, now: Instant) returns (r: Result<bool, MonitorError>)
    modifies store
    ensures r.Ok? <==> id in old(store.monitors)
    ensures r.Ok? ==> store.Contents() == L.WakeMonitor(old(store.Contents()), id, now)
    ensures r.Ok? ==> (r.value <==> old(store.monitors)[id].payload.state.Pending?)
    ensures r.Err? ==> store.Contents() == old(store.Contents())
  {
    if id !in store.monitors {
      return Err(MonitorMissing);
    }
    var monitor := new M.MonitorRecord.Load(store.monitors[id].payload);
    var changed := monitor.Wake(now);
    if changed {
      store.PutMonitor(monitor.Value());
    }
    return Ok(changed);
  }

  method CancelMonitor(store: EventStore, id: MonitorId, now: Instant) returns (r: Result<bool, MonitorError>)
    modifies store
    ensures r.Ok? <==> id in old(store.monitors)
    ensures r.Ok? ==> store.Contents() == L.CancelMonitor(old(store.Contents()), id, now)
    ensures r.Ok? ==> (r.value <==> !old(store.monitors)[id].payload.state.IsTerminal())
    ensures r.Err? ==> store.Contents() == old(store.Contents())
  {
    if id !in store.monitors {
      return Err(MonitorMissing);
    }
    var monitor := new M.MonitorRecord.Load(store.monitors[id].payload);
    var changed := monitor.Cancel(now);
    if changed {
      store.PutMonitor(monitor.Value());
    }
    return Ok(changed);
  }
}
