/** What the protocol promises, over every run from the empty store: any interleaving of handlers,
    any remote outcome, any clock, and any number of restarts. */
module Theorems {
  import opened Base
  import opened Sources
  import opened Domain
  import opened Contract
  import opened Capabilities
  import opened GitHubActions
  import opened Policy
  import opened Tables
  import opened Protocol
  import opened TimelineProofs
  import opened Invariant
  import opened Reachability
  import StepProofs
  import DeliveryProofs
  import D = DeliverySpec
  import DeliveryRules
  import ReconcileRules
  import L = LifecycleSpec
  import M = Monitoring

  // ----- The merge gate -----

  /** Whatever stands at the merge gate or merges has a stored monitor that succeeded on a green
      observation of exactly the expected SHAs. */
  lemma MergeGateIsGreen(s: Sys, id: TaskId)
    requires Reachable(s)
    requires id in s.db.tasks && AtMergeGate(s.db.tasks[id].state)
    ensures exists m :: OpenedBy(s.db.monitors, id, m)
  {
    ReachableInv(s);
    assert Holds(Gates, s);
    assert OpenedBy(s.db.monitors, id, s.mergeGate[id]);
  }

  /** Every merge or enqueue claim ever made names the repository, the number and the head SHA that a
      succeeded monitor of its task observed green. */
  lemma MergeClaimsCarryTheObservedSha(s: Sys, i: nat)
    requires Reachable(s)
    requires i < |s.log| && IsMergeClaim(s.log[i])
    ensures exists m :: OpenedBy(s.db.monitors, s.log[i].taskId, m)
                        && ClaimMatches(s.log[i].key, s.db.monitors[m].payload)
  {
    ReachableInv(s);
    assert Holds(Gates, s) && Holds(MergeClaims, s) && Holds(Monitors, s);
    var event := s.log[i];
    assert MergeClaimInv(s.db.tasks, s.db.approvals, s.mergeGate, event);
    var m := s.mergeGate[event.taskId];
    assert OpenedBy(s.db.monitors, event.taskId, m);
    assert MonitorRowInv(s.db.tasks, m, s.db.monitors[m]);
    assert ClaimMatches(event.key, s.db.monitors[m].payload);
  }

  /** At the moment a merge or enqueue claim goes through, a monitor of its task has already succeeded on
      the pull request and head SHA that the claim names. */
  lemma MergeClaimsFollowGreenMonitors(s: Sys, a: Action)
    requires Reachable(s)
    requires LogsAClaim(s, Apply(s, a)) && IsMergeClaim(Last(Apply(s, a).log))
    ensures a.ClaimDelivery?
    ensures exists m :: OpenedBy(s.db.monitors, a.delivery.taskId, m)
                        && ClaimMatches(a.delivery.action.IdempotencySha256(), s.db.monitors[m].payload)
  {
    ReachableInv(s);
    ClaimsAreJustified(s, a);
    JustifiedMergeIsObserved(s, a.delivery, a.approvalId, a.automationDisabled, a.now, a.worktreeHead);
  }

  lemma JustifiedMergeIsObserved(s: Sys, preview: D.DeliveryPreview, approvalId: ApprovalId, automationDisabled: bool,
                                 now: Instant, worktreeHead: Option<Sha>)
    requires Inv(s) && DeliveryRules.IsJustified(s.db, preview, approvalId, automationDisabled, now, worktreeHead)
    requires IsMergeKey(preview.action.IdempotencySha256())
    ensures exists m :: OpenedBy(s.db.monitors, preview.taskId, m)
                        && ClaimMatches(preview.action.IdempotencySha256(), s.db.monitors[m].payload)
  {
    assert Holds(Timelines, s) && Holds(Contracts, s) && Holds(Gates, s) && Holds(Monitors, s);
    DeliveryProofs.MergeClaimIsReady(s, preview, approvalId, automationDisabled, now, worktreeHead);
    var m := s.mergeGate[preview.taskId];
    assert OpenedBy(s.db.monitors, preview.taskId, m);
    assert MonitorRowInv(s.db.tasks, m, s.db.monitors[m]);
    assert ClaimMatches(preview.action.IdempotencySha256(), s.db.monitors[m].payload);
  }

  ghost predicate ClaimMatches(key: Key, monitor: M.Monitor) {
    && monitor.latestObservation.Some?
    && key.remote.repositoryFullName == monitor.repositoryFullName
    && key.action.PullRequestNumber() == Some(monitor.pullRequestNumber)
    && key.action.ExpectedHeadSha() == Some(monitor.latestObservation.value.headSha)
  }

  // ----- Claims and approvals -----

  /** A step that logs a delivery claim was a claim request that the tables justified at that moment,
      for a key that was free or definitely failed. */
  lemma ClaimsAreJustified(s: Sys, a: Action)
    requires LogsAClaim(s, Apply(s, a))
    ensures a.ClaimDelivery?
    ensures DeliveryRules.IsJustified(s.db, a.delivery, a.approvalId, a.automationDisabled, a.now, a.worktreeHead)
    ensures Claimable(s.db.deliveries, a.delivery.action.IdempotencySha256())
    ensures Last(Apply(s, a).log) ==
              DeliveryClaimed(a.delivery.action.IdempotencySha256(), a.delivery.taskId, a.approvalId)
  {
    if a.ClaimDelivery? {
      ClaimStepIsJustified(s, a.handler, a.delivery, a.approvalId, a.automationDisabled, a.now, a.worktreeHead);
    } else {
      OtherStepsClaimNothing(s, a);
      assert false;
    }
  }

  ghost predicate LogsAClaim(s: Sys, t: Sys) {
    t.log != s.log && t.log != [] && Last(t.log).DeliveryClaimed?
  }

  lemma ClaimStepIsJustified(s: Sys, handler: HandlerId, preview: D.DeliveryPreview, approvalId: ApprovalId,
                             automationDisabled: bool, now: Instant, worktreeHead: Option<Sha>)
    requires var t := DoClaimDelivery(s, handler, preview, approvalId, automationDisabled, now, worktreeHead); t.log != s.log
    ensures DeliveryRules.IsJustified(s.db, preview, approvalId, automationDisabled, now, worktreeHead)
    ensures Claimable(s.db.deliveries, preview.action.IdempotencySha256())
    ensures Last(DoClaimDelivery(s, handler, preview, approvalId, automationDisabled, now, worktreeHead).log) ==
              DeliveryClaimed(preview.action.IdempotencySha256(), preview.taskId, approvalId)
  {
    DeliveryRules.AuthorizedExactly(s.db, preview, approvalId, automationDisabled, now, worktreeHead);
  }

  lemma OtherStepsClaimNothing(s: Sys, a: Action)
    requires !a.ClaimDelivery?
    ensures !LogsAClaim(s, Apply(s, a))
  {
    if a.IsTaskAction() {
      TaskStepsClaimNothing(s, a);
    } else if a.IsPreparationAction() {
      PreparationStepsClaimNothing(s, a);
    } else if a.IsVerificationAction() {
      VerificationStepsClaimNothing(s, a);
    } else if a.IsDeliveryAction() {
      DeliveryStepsClaimNothing(s, a);
    }
  }

  lemma TaskStepsClaimNothing(s: Sys, a: Action)
    requires a.IsTaskAction()
    ensures !LogsAClaim(s, Apply(s, a))
  {
  }

  lemma PreparationStepsClaimNothing(s: Sys, a: Action)
    requires a.IsPreparationAction()
    ensures !LogsAClaim(s, Apply(s, a))
  {
  }

  lemma VerificationStepsClaimNothing(s: Sys, a: Action)
    requires a.IsVerificationAction()
    ensures !LogsAClaim(s, Apply(s, a))
  {
    match a
    case BeginVerification(run, id, now, written) => BeginVerificationLogsNothing(s, run, id, now, written);
    case CommitVerification(run, checkpoint, now, written) => CommitVerificationClaimsNothing(s, run, checkpoint, now, written);
    case _ =>
  }

  lemma BeginVerificationLogsNothing(s: Sys, runId: RunId, taskId: TaskId, now: Instant, written: nat)
    ensures DoBeginVerification(s, runId, taskId, now, written).log == s.log
  {
    if runId !in s.runs && L.CanVerify(s.db, taskId) && written <= |L.VerifyEntryPath(s.db.tasks[taskId].state)| {
      var entered := s.(db := L.VerifyEntry(s.db, taskId, now, written));
      assert entered.log == s.log;
    }
  }

  lemma CommitVerificationClaimsNothing(s: Sys, runId: RunId, checkpointId: CheckpointId, now: Instant, written: nat)
    ensures !LogsAClaim(s, DoCommitVerification(s, runId, checkpointId, now, written))
  {
  }

  lemma DeliveryStepsClaimNothing(s: Sys, a: Action)
    requires a.IsDeliveryAction() && !a.ClaimDelivery?
    ensures !LogsAClaim(s, Apply(s, a))
  {
    match a
    case ApproveDelivery(preview, id, who, now, head) => ApprovalLogsNothing(s, preview, id, who, now, head);
    case Reconcile(id, snapshot, ambiguous, now) => ReconcileClaimsNothing(s, id, snapshot, ambiguous, now);
    case _ =>
  }

  lemma ApprovalLogsNothing(s: Sys, preview: D.DeliveryPreview, id: ApprovalId, approvedBy: string, now: Instant,
                            worktreeHead: Option<Sha>)
    ensures DoApproveDelivery(s, preview, id, approvedBy, now, worktreeHead).log == s.log
  {
  }

  lemma ReconcileClaimsNothing(s: Sys, id: TaskId, snapshot: Tables.Snapshot, ambiguous: Option<Key>, now: Instant)
    ensures !LogsAClaim(s, DoReconcile(s, id, snapshot, ambiguous, now))
  {
    assert s.log + [] == s.log;
  }

  /** A merge approval stands behind at most one claim, whatever was retried, lost, reconciled or restarted. */
  lemma MergeApprovalsAreSpentOnce(s: Sys, i: nat, j: nat)
    requires Reachable(s)
    requires i < j < |s.log| && IsMergeClaim(s.log[i]) && IsMergeClaim(s.log[j])
    ensures s.log[i].approvalId != s.log[j].approvalId
  {
    ReachableInv(s);
    assert Holds(MergeClaims, s);
  }

  /** An approval of any class serves one task and one idempotency key: its fingerprint determines the
      key although the key also digests the installation, which the fingerprint leaves out. */
  lemma ApprovalsServeOneKey(s: Sys, i: nat, j: nat)
    requires Reachable(s)
    requires i < |s.log| && j < |s.log| && s.log[i].DeliveryClaimed? && s.log[j].DeliveryClaimed?
    requires s.log[i].approvalId == s.log[j].approvalId
    ensures s.log[i].key == s.log[j].key && s.log[i].taskId == s.log[j].taskId
  {
    ReachableInv(s);
    assert Holds(Justifications, s);
    assert JustifiedClaim(s.db.tasks, s.db.contracts, s.db.bindings, s.db.approvals, s.log[i]);
    assert JustifiedClaim(s.db.tasks, s.db.contracts, s.db.bindings, s.db.approvals, s.log[j]);
  }

  // ----- At most once -----

  /** A claimed key that is free again has failed in the meantime. */
  lemma {:induction false} FailureSince(log: seq<Event>, key: Key, i: nat) returns (k: nat)
    requires i < |log| && log[i].DeliveryClaimed? && log[i].key == key
    requires Status(log, key) in {None, Some(DeliveryResult.Failed)}
    ensures i < k < |log| && log[k] == DeliveryRecorded(key, DeliveryResult.Failed)
  {
    if Last(log) == DeliveryRecorded(key, DeliveryResult.Failed) {
      k := |log| - 1;
    } else {
      k := FailureSince(log[..|log| - 1], key, i);
    }
  }

  /** Between two claims of one key a definite failure was recorded. */
  lemma FailureBetweenClaims(s: Sys, i: nat, j: nat)
    requires Reachable(s)
    requires i < j < |s.log| && s.log[i].DeliveryClaimed? && s.log[j].DeliveryClaimed? && s.log[i].key == s.log[j].key
    ensures exists k :: i < k < j && s.log[k] == DeliveryRecorded(s.log[i].key, DeliveryResult.Failed)
  {
    ReachableInv(s);
    assert Holds(DeliveryLog, s);
    assert LegalNext(s.log[..j], s.log[j]);
    var k := FailureSince(s.log[..j], s.log[i].key, i);
    assert s.log[k] == s.log[..j][k];
  }

  lemma {:induction false} SuccessIsLast(log: seq<Event>, key: Key, i: nat, merged: bool)
    requires LegalLog(log) && i < |log| && log[i] == DeliveryRecorded(key, DeliveryResult.Succeeded(merged))
    ensures Status(log, key) == Some(DeliveryResult.Succeeded(merged))
    ensures forall j :: i < j < |log| ==> !Concerns(log[j], key)
  {
    var front := log[..|log| - 1];
    if i < |front| {
      forall k | 0 <= k < |front| ensures LegalNext(front[..k], front[k]) {
        assert front[..k] == log[..k];
      }
      SuccessIsLast(front, key, i, merged);
      assert LegalNext(front, Last(log));
      forall j | i < j < |log| ensures !Concerns(log[j], key) {
        if j < |front| { assert front[j] == log[j]; }
      }
    }
  }

  ghost predicate Concerns(event: Event, key: Key) {
    (event.DeliveryClaimed? || event.DeliveryRecorded?) && event.key == key
  }

  /** A recorded success is final although completion updates unconditionally: the key is never claimed
      or recorded again, and its row keeps that result. */
  lemma SuccessIsNeverOverwritten(s: Sys, key: Key, i: nat, merged: bool)
    requires Reachable(s)
    requires i < |s.log| && s.log[i] == DeliveryRecorded(key, DeliveryResult.Succeeded(merged))
    ensures key in s.db.deliveries && s.db.deliveries[key].result == DeliveryResult.Succeeded(merged)
    ensures forall j :: i < j < |s.log| ==> !Concerns(s.log[j], key)
  {
    ReachableInv(s);
    assert Holds(DeliveryLog, s);
    SuccessIsLast(s.log, key, i, merged);
  }

  // ----- Tasks and deliveries agree -----

  /** A task has at most one unresolved delivery row, and only while it merges or after it completed. */
  lemma OneUnresolvedDeliveryPerTask(s: Sys, id: TaskId, a: Key, b: Key)
    requires Reachable(s)
    requires var rows := s.db.deliveries;
             && a in rows && rows[a].taskId == Some(id) && rows[a].result.IsUnresolved()
             && b in rows && rows[b].taskId == Some(id) && rows[b].result.IsUnresolved()
    ensures a == b
    ensures id in s.db.tasks && MergingOrCompleted(s.db.tasks[id].state)
  {
    ReachableInv(s);
    assert Holds(Deliveries, s);
    assert RowInv(s.db.tasks, s.mergeClaim, a, s.db.deliveries[a]) && RowInv(s.db.tasks, s.mergeClaim, b, s.db.deliveries[b]);
  }

  /** A merging task always has a delivery row of its own that has not failed. */
  lemma MergingTasksHoldARow(s: Sys, id: TaskId)
    requires Reachable(s)
    requires id in s.db.tasks && s.db.tasks[id].state.Merging?
    ensures var rows := s.db.deliveries;
            exists key :: key in rows && rows[key].taskId == Some(id) && !rows[key].result.Failed? && IsMergeKey(key)
  {
    ReachableInv(s);
    assert Holds(Deliveries, s);
    assert HoldsClaim(s.db.deliveries, s.mergeClaim, id);
    assert RowInv(s.db.tasks, s.mergeClaim, s.mergeClaim[id], s.db.deliveries[s.mergeClaim[id]]);
  }

  /** Reconciliation has no choice: the newest ambiguous row of a task is its only one. */
  lemma ReconciledRowIsUnique(s: Sys, id: TaskId, first: Option<Key>, second: Option<Key>)
    requires Reachable(s)
    requires IsAmbiguousChoice(s.db.deliveries, id, first)
    requires IsAmbiguousChoice(s.db.deliveries, id, second)
    ensures first == second
  {
    if first.Some? && second.Some? {
      OneUnresolvedDeliveryPerTask(s, id, first.value, second.value);
    }
  }

  /** No two executors in flight work on one key, and the row of each is still pending. */
  lemma ExecutorsOwnTheirRows(s: Sys, h: HandlerId, g: HandlerId)
    requires Reachable(s)
    requires h in s.execs && g in s.execs
    ensures && s.execs[h].key in s.db.deliveries && s.db.deliveries[s.execs[h].key].result.Pending?
            && (s.execs[h].key == s.execs[g].key ==> h == g)
  {
    ReachableInv(s);
    assert Holds(Executors, s);
    assert ExecRowInv(s.db.tasks, s.db.deliveries, s.execs[h]);
  }

  ghost predicate HasAmbiguous(rows: map<Key, DeliveryRow>, id: TaskId) {
    exists key :: key in rows && IsAmbiguousFor(rows, id, key)
  }

  ghost predicate HasLiveApproval(approvals: map<ApprovalId, ApprovalRow>, id: TaskId) {
    exists a :: a in approvals && approvals[a].approval.fingerprint.taskId == id && !approvals[a].invalidated
  }

  /** A reconciliation that goes through completes the task, or returns it to its gate with no approval
      left alive; and it leaves an ambiguous row behind exactly when the task had already completed. */
  ghost predicate Settles(before: Db, after: Db, id: TaskId, snapshot: Tables.Snapshot)
    requires id in before.tasks
  {
    var completed := ReconcileRules.ShowsDone(before.tasks[id].source, snapshot);
    && id in after.tasks
    && (completed ==> after.tasks[id].state.Completed?)
    && (!completed ==> after.tasks[id].state.AwaitingMergeApproval? && !HasLiveApproval(after.approvals, id))
    && (HasAmbiguous(after.deliveries, id) <==> before.tasks[id].state.Completed? && HasAmbiguous(before.deliveries, id))
  }

  lemma SettledRow(tasks: map<TaskId, Task>, rows: map<Key, DeliveryRow>, claim: map<TaskId, Key>, id: TaskId,
                   choice: Option<Key>, result: DeliveryResult)
    requires DeliveryInv(tasks, rows, claim) && IsAmbiguousChoice(rows, id, choice) && !result.Ambiguous?
    ensures choice.None? ==> !HasAmbiguous(rows, id)
    ensures choice.Some? ==> HasAmbiguous(rows, id)
    ensures choice.Some? ==> !HasAmbiguous(rows[choice.value := DeliveryProofs.Recorded(rows[choice.value], result)], id)
  {
  }

  lemma OnlyMergingOrCompletedAreAmbiguous(s: Sys, id: TaskId)
    requires Holds(Deliveries, s) && HasAmbiguous(s.db.deliveries, id)
    ensures id in s.db.tasks && MergingOrCompleted(s.db.tasks[id].state)
  {
    var key :| key in s.db.deliveries && IsAmbiguousFor(s.db.deliveries, id, key);
    assert RowInv(s.db.tasks, s.mergeClaim, key, s.db.deliveries[key]);
  }

  /** What a failed merge leaves in the tables. */
  lemma FailedMergeTables(db: Db, key: Key, task: Task)
    requires key in db.deliveries
    ensures var after := CompleteFailedMerge(db, key, task);
            && task.id in after.tasks && after.tasks[task.id] == task
            && !HasLiveApproval(after.approvals, task.id)
            && after.deliveries == db.deliveries[key := DeliveryProofs.Recorded(db.deliveries[key], DeliveryResult.Failed)]
  {
  }

  lemma UnmergedSettles(s: Sys, id: TaskId, snapshot: Tables.Snapshot, key: Key, now: Instant)
    requires Holds(Timelines, s) && Holds(Deliveries, s) && IsAmbiguousChoice(s.db.deliveries, id, Some(key))
    requires id in s.db.tasks && s.db.tasks[id].state.Merging?
    requires !ReconcileRules.ShowsDone(s.db.tasks[id].source, snapshot)
    ensures Settles(s.db, CompleteFailedMerge(s.db, key, Moved(s.db.tasks[id], AwaitingMergeApproval, now)), id, snapshot)
  {
    RowIdentity(s.db.tasks, s.db.timeline, id);
    SettledRow(s.db.tasks, s.db.deliveries, s.mergeClaim, id, Some(key), DeliveryResult.Failed);
    FailedMergeTables(s.db, key, Moved(s.db.tasks[id], AwaitingMergeApproval, now));
  }

  /** What a walk leaves in the tables. */
  lemma WalkTables(db: Db, id: TaskId, task: Task, path: seq<TaskState>, now: Instant)
    requires path != []
    ensures var after := SaveVersions(db, id, Versions(task, path, now));
            && id in after.tasks && after.tasks[id] == Moved(task, Last(path), now)
            && after.deliveries == db.deliveries && after.approvals == db.approvals
  {
  }

  lemma CompletedSettles(s: Sys, id: TaskId, snapshot: Tables.Snapshot, choice: Option<Key>, now: Instant)
    requires Holds(Timelines, s) && Holds(Deliveries, s) && IsAmbiguousChoice(s.db.deliveries, id, choice)
    requires id in s.db.tasks && D.CompletionPath(s.db.tasks[id].state).Some?
    requires ReconcileRules.ShowsDone(s.db.tasks[id].source, snapshot)
    requires s.db.tasks[id].state.Merging? || choice.None?
    ensures var recorded := if choice.Some? then RecordDelivery(s.db, choice.value, DeliveryResult.Succeeded(true)) else s.db;
            Settles(s.db, SaveVersions(recorded, id, Versions(s.db.tasks[id], D.CompletionPath(s.db.tasks[id].state).value, now)),
                    id, snapshot)
  {
    var task := s.db.tasks[id];
    var path := D.CompletionPath(task.state).value;
    var recorded := if choice.Some? then RecordDelivery(s.db, choice.value, DeliveryResult.Succeeded(true)) else s.db;
    SettledRow(s.db.tasks, s.db.deliveries, s.mergeClaim, id, choice, DeliveryResult.Succeeded(true));
    DeliveryProofs.CompletionPathIsLegal(task.state);
    WalkTables(recorded, id, task, path, now);
    assert !HasAmbiguous(recorded.deliveries, id) && !task.state.Completed?;
  }

  lemma ReconcileSettles(s: Sys, id: TaskId, snapshot: Tables.Snapshot, choice: Option<Key>, now: Instant)
    requires Holds(Timelines, s) && Holds(Deliveries, s) && IsAmbiguousChoice(s.db.deliveries, id, choice)
    requires D.Reconcile(s.db, id, snapshot, choice, now).Ok?
    ensures Settles(s.db, D.Reconcile(s.db, id, snapshot, choice, now).value, id, snapshot)
  {
    RowIdentity(s.db.tasks, s.db.timeline, id);
    ReconcileRules.ItemShows(s.db, id, snapshot);
    if HasAmbiguous(s.db.deliveries, id) {
      OnlyMergingOrCompletedAreAmbiguous(s, id);
    }
    if choice.Some? {
      assert IsAmbiguousFor(s.db.deliveries, id, choice.value);
    }
    if !D.RemotelyCompleted(D.ReconciledItem(s.db, id, snapshot).value) {
      UnmergedSettles(s, id, snapshot, choice.value, now);
    } else if !s.db.tasks[id].state.Completed? {
      CompletedSettles(s, id, snapshot, choice, now);
    }
  }

  /** In every reachable state a reconciliation that goes through settles its task. */
  lemma ReconciliationSettlesTheTask(s: Sys, id: TaskId, snapshot: Tables.Snapshot, choice: Option<Key>, now: Instant)
    requires Reachable(s)
    requires IsAmbiguousChoice(s.db.deliveries, id, choice)
    requires D.Reconcile(Synced(s.db, snapshot, now), id, snapshot, choice, now).Ok?
    ensures Settles(s.db, DoReconcile(s, id, snapshot, choice, now).db, id, snapshot)
  {
    ReachableInv(s);
    DeliveryProofs.SyncKeepsInv(s, snapshot, now);
    assert Holds(Timelines, DoSyncSnapshot(s, snapshot, now)) && Holds(Deliveries, DoSyncSnapshot(s, snapshot, now));
    var synced := DoSyncSnapshot(s, snapshot, now);
    ReconcileSettles(synced, id, snapshot, choice, now);
  }

  /** A definite failure of a merge in flight leaves its task at the gate, or already settled by
      reconciliation; at the gate no approval given before is alive any more. */
  lemma FailedMergesNeedFreshApproval(s: Sys, h: HandlerId, now: Instant)
    requires Reachable(s)
    requires h in s.execs && IsMergeKey(s.execs[h].key)
    ensures var id, after := s.execs[h].preview.taskId, DoFailDelivery(s, h, now).db;
            && id in after.tasks && s.execs[h].key in after.deliveries
            && (after.tasks[id].state.Completed?
                || (after.tasks[id].state.AwaitingMergeApproval? && !HasLiveApproval(after.approvals, id)))
            && after.deliveries[s.execs[h].key].result.Failed?
  {
    ReachableInv(s);
    FailedMergeOutcome(s, h, now);
  }

  lemma FailedMergeOutcome(s: Sys, h: HandlerId, now: Instant)
    requires Holds(Executors, s) && Holds(Deliveries, s) && Holds(Timelines, s)
    requires h in s.execs && IsMergeKey(s.execs[h].key)
    ensures var id, after := s.execs[h].preview.taskId, DoFailDelivery(s, h, now).db;
            && id in after.tasks && s.execs[h].key in after.deliveries
            && (after.tasks[id].state.Completed?
                || (after.tasks[id].state.AwaitingMergeApproval? && !HasLiveApproval(after.approvals, id)))
            && after.deliveries[s.execs[h].key].result.Failed?
  {
    DeliveryProofs.ExecOwnsRow(s, h, DeliveryResult.Failed);
    var exec := s.execs[h];
    assert RowInv(s.db.tasks, s.mergeClaim, exec.key, s.db.deliveries[exec.key]);
    if s.db.tasks[exec.preview.taskId].state.Merging? {
      FailedMergeTables(s.db, exec.key, Moved(s.db.tasks[exec.preview.taskId], AwaitingMergeApproval, now));
    }
  }

  // ----- Preparation -----

  /** The copy a preparation read is still the stored task, and the version it saves is a legal step from it. */
  ghost predicate SavesOntoItsCopy(s: Sys, h: HandlerId, checkpointId: CheckpointId, now: Instant)
    requires h in s.preps && s.preps[h].phase.Read?
  {
    var prep := s.preps[h];
    var id := prep.preview.taskId;
    && id in s.db.tasks && s.db.tasks[id] == prep.phase.task
    && var saved := L.PreparedTask(prep.phase.task, prep.preview, checkpointId, now);
       Follows(s.db.tasks[id], saved) && DoSavePreparation(s, h, checkpointId, now).db == SaveTask(s.db, saved)
  }

  lemma InvSavesOntoItsCopy(s: Sys, h: HandlerId, checkpointId: CheckpointId, now: Instant)
    requires Inv(s) && h in s.preps && s.preps[h].phase.Read?
    ensures SavesOntoItsCopy(s, h, checkpointId, now)
  {
    StepProofs.SavedCopyIsCurrent(s, h);
  }

  /** The unguarded save of a preparation loses no update, whatever ran since it read its task. */
  lemma PreparationLosesNoUpdate(s: Sys, h: HandlerId, checkpointId: CheckpointId, now: Instant)
    requires Reachable(s)
    requires h in s.preps && s.preps[h].phase.Read?
    ensures SavesOntoItsCopy(s, h, checkpointId, now)
    ensures Apply(s, SavePreparation(h, checkpointId, now)) == DoSavePreparation(s, h, checkpointId, now)
  {
    ReachableInv(s);
    InvSavesOntoItsCopy(s, h, checkpointId, now);
  }

  /** An approval claims a preparation at most once ever, across restarts. */
  lemma PreparationApprovalsAreSpentOnce(s: Sys, i: nat, j: nat)
    requires Reachable(s)
    requires i < j < |s.log| && s.log[i].PreparationClaimed? && s.log[j].PreparationClaimed?
    ensures s.log[i].approvalId != s.log[j].approvalId
  {
    ReachableInv(s);
    assert Holds(PreparationLog, s);
  }

  lemma OneActivePreparationPerTask(s: Sys, a: ApprovalId, b: ApprovalId)
    requires Reachable(s)
    requires var claims := s.db.claims;
             && a in claims && b in claims && claims[a].result.Active? && claims[b].result.Active?
             && claims[a].taskId == claims[b].taskId
    ensures a == b
  {
    ReachableInv(s);
    assert Holds(Preparations, s);
  }

  /** The four answers of a claim, each with what it says about the claims table. */
  lemma PreparationOutcomesAreExact(db: Db, id: ApprovalId, taskId: TaskId, fingerprint: ActionFingerprint, now: Instant)
    ensures var outcome := ClaimPreparationOutcome(db, id, taskId, fingerprint, now);
            var after := Tables.ClaimPreparation(db, id, taskId, fingerprint, now);
            && (outcome.Claimed? <==> id !in db.claims && IsActiveClaim(after, id) && after.claims[id].taskId == taskId)
            && (!outcome.Claimed? ==> after == db)
            && (outcome.AlreadyClaimed? <==> id in db.claims)
            && (outcome.TaskInProgress? ==>
                  exists other :: other != id && IsActiveClaim(db, other) && db.claims[other].taskId == taskId)
            && (outcome.Claimed? ==> forall other :: other in db.claims && db.claims[other].taskId == taskId ==>
                                       !IsActiveClaim(db, other))
  {
  }

  /** Reopening ends every active claim and frees no approval that was used. */
  lemma ReopeningEndsActiveClaims(db: Db)
    ensures var after := RecoverInterruptedPreparations(db);
            && after.claims.Keys == db.claims.Keys
            && (forall id :: id in after.claims ==> !after.claims[id].result.Active?)
            && (forall id :: id in db.claims && !db.claims[id].result.Active? ==> after.claims[id] == db.claims[id])
            && RecoverInterruptedPreparations(after) == after
  {
  }

  // ----- Timelines -----

  /** The stored task is the last entry of its timeline, and the timeline walks legal edges from Discovered. */
  lemma TimelineRefines(s: Sys, id: TaskId)
    requires Reachable(s)
    requires id in s.db.tasks
    ensures && id in s.db.timeline && LegalHistory(id, s.db.timeline[id]) && Last(s.db.timeline[id]) == s.db.tasks[id]
  {
    ReachableInv(s);
    assert Holds(Timelines, s);
  }

  lemma {:induction false} WasMonitored(id: TaskId, history: seq<Task>, n: nat) returns (k: nat)
    requires LegalHistory(id, history) && n < |history|
    requires history[n].state in {TaskState.Monitoring, AwaitingMergeApproval, Merging, Completed}
    ensures k <= n && history[k].state.Monitoring?
  {
    if history[n].state.Monitoring? {
      k := n;
    } else {
      assert Follows(history[n - 1], history[n]);
      k := WasMonitored(id, history, n - 1);
    }
  }

  ghost predicate VisitedInOrder(history: seq<Task>, milestones: seq<TaskState>) {
    exists at: seq<nat> ::
      && |at| == |milestones|
      && (forall i :: 0 <= i < |at| ==> at[i] < |history| && history[at[i]].state == milestones[i])
      && forall i :: 0 < i < |at| ==> at[i - 1] < at[i]
  }

  const MILESTONES: seq<TaskState> := [Preparing, Verifying, AwaitingDeliveryApproval, TaskState.Monitoring, Completed]

  lemma {:induction false} HistoryPermits(id: TaskId, history: seq<Task>, n: nat)
    requires LegalHistory(id, history) && 0 < n < |history|
    ensures history[n - 1].state.Permits(history[n].state)
  {
  }

  /** A monitored task came straight from its preparation. */
  lemma CameFromPreparation(id: TaskId, history: seq<Task>, k: nat)
    requires LegalHistory(id, history) && k < |history| && history[k].state.Monitoring?
    ensures k >= 6 && history[k - 6].state.Preparing? && history[k - 4].state.Verifying?
    ensures history[k - 2].state.AwaitingDeliveryApproval?
  {
    HistoryPermits(id, history, k);
    HistoryPermits(id, history, k - 1);
    HistoryPermits(id, history, k - 2);
    HistoryPermits(id, history, k - 3);
    HistoryPermits(id, history, k - 4);
    HistoryPermits(id, history, k - 5);
  }

  lemma LegalHistoryVisitsMilestones(id: TaskId, history: seq<Task>)
    requires LegalHistory(id, history) && Last(history).state.Completed?
    ensures VisitedInOrder(history, MILESTONES)
  {
    var last := |history| - 1;
    var k := WasMonitored(id, history, last);
    CameFromPreparation(id, history, k);
    var at: seq<nat> := [k - 6, k - 4, k - 2, k, last];
    assert forall i :: 0 <= i < |at| ==> at[i] < |history| && history[at[i]].state == MILESTONES[i];
    assert forall i :: 0 < i < |at| ==> at[i - 1] < at[i];
  }

  /** Nothing completes without having been prepared, verified, held for approval and monitored, in that order. */
  lemma CompletedVisitsMilestones(s: Sys, id: TaskId)
    requires Reachable(s)
    requires id in s.db.tasks && s.db.tasks[id].state.Completed?
    ensures id in s.db.timeline && VisitedInOrder(s.db.timeline[id], MILESTONES)
  {
    TimelineRefines(s, id);
    LegalHistoryVisitsMilestones(id, s.db.timeline[id]);
  }

  // ----- Verification -----

  /** A task past verification has one run whose evidence is numbered 1..n, one successful entry for
      each command of its contract, in order. */
  lemma VerifiedTasksHaveFullEvidence(s: Sys, id: TaskId)
    requires Reachable(s)
    requires id in s.db.tasks && PastVerification(s.db.tasks[id].state)
    ensures id in s.db.contracts
    ensures exists runId :: FullEvidence(s.db, id, runId)
  {
    ReachableInv(s);
    assert Holds(Verified, s) && Holds(Runs, s) && Holds(Evidence, s);
    var runId := s.passed[id];
    assert PassedInv(s.runs, s.live, id, runId);
    assert RunInv(s.db.tasks, s.db.contracts, false, s.runs[runId]);
    FullEvidenceOf(s, id, runId);
  }

  lemma FullEvidenceOf(s: Sys, id: TaskId, runId: RunId)
    requires EvidenceRowsInv(s.db.evidence, s.runs) && PassedInv(s.runs, s.live, id, runId)
    requires id in s.db.contracts && s.db.contracts[id].verificationCommands == s.runs[runId].commands
    ensures FullEvidence(s.db, id, runId)
  {
  }

  ghost predicate FullEvidence(db: Db, id: TaskId, runId: RunId) {
    && id in db.contracts
    && var commands := db.contracts[id].verificationCommands;
       forall ordinal: nat ::
         && (EvidenceKey(id, runId, ordinal) in db.evidence <==> 1 <= ordinal <= |commands|)
         && (EvidenceKey(id, runId, ordinal) in db.evidence && 1 <= ordinal <= |commands| ==>
               db.evidence[EvidenceKey(id, runId, ordinal)] == VerificationEvidence(commands[ordinal - 1], true))
  }

  /** The evidence of any run, finished or not, is a contiguous prefix in which only the last entry may have failed. */
  lemma EvidenceIsAPrefix(s: Sys, id: TaskId, runId: RunId, ordinal: nat)
    requires Reachable(s)
    requires EvidenceKey(id, runId, ordinal) in s.db.evidence
    ensures var evidence := s.db.evidence;
            && ordinal >= 1
            && forall earlier: nat :: 1 <= earlier < ordinal ==>
                 EvidenceKey(id, runId, earlier) in evidence && evidence[EvidenceKey(id, runId, earlier)].success
  {
    ReachableInv(s);
    assert Holds(Runs, s) && Holds(Evidence, s);
    assert RunInv(s.db.tasks, s.db.contracts, runId in s.live, s.runs[runId]);
    PrefixOf(s, id, runId, ordinal);
  }

  lemma PrefixOf(s: Sys, id: TaskId, runId: RunId, ordinal: nat)
    requires EvidenceRowsInv(s.db.evidence, s.runs) && EvidenceKey(id, runId, ordinal) in s.db.evidence
    requires var run := s.runs[runId];
             |run.outcomes| <= |run.commands| && forall i :: 0 <= i < |run.outcomes| - 1 ==> run.outcomes[i]
    ensures ordinal >= 1
    ensures forall earlier: nat :: 1 <= earlier < ordinal ==>
              && EvidenceKey(id, runId, earlier) in s.db.evidence
              && s.db.evidence[EvidenceKey(id, runId, earlier)].success
  {
  }

  /** However many verifications run at once, at most one commits. */
  lemma AtMostOneVerificationCommits(s: Sys, i: nat, j: nat)
    requires Reachable(s)
    requires i < j < |s.log| && s.log[i].VerificationCommitted? && s.log[j].VerificationCommitted?
    ensures s.log[i].taskId != s.log[j].taskId
  {
    ReachableInv(s);
    assert Holds(VerificationLog, s);
  }
}
