/** What a monitor concludes from the stored snapshot, said about the snapshot's pull requests themselves. */
module MonitorRules {
  import opened Base
  import opened Sources
  import opened Domain
  import opened Contract
  import opened Policy
  import opened Tables
  import L = LifecycleSpec
  import M = Monitoring

  predicate IsPull(item: WorkItem, repositoryFullName: string, number: nat) {
    item.kind.PullRequest? && item.repositoryFullName == repositoryFullName && item.number == number
  }

  predicate IsFirstPull(items: seq<WorkItem>, repositoryFullName: string, number: nat, i: int) {
    && 0 <= i < |items| && IsPull(items[i], repositoryFullName, number)
    && forall j :: 0 <= j < i ==> !IsPull(items[j], repositoryFullName, number)
  }

  /** A snapshot of the repository that is at most five minutes old, and not from the future. */
  predicate HasRecentSnapshot(db: Db, repositoryFullName: string, now: Instant) {
    && repositoryFullName in db.snapshots
    && db.snapshots[repositoryFullName].syncedAt <= now
    && now <= db.snapshots[repositoryFullName].syncedAt + 5 * NANOS_PER_MINUTE
  }

  lemma {:induction false} FirstPullIsFound(items: seq<WorkItem>, repositoryFullName: string, number: nat)
    ensures match L.FindPullRequest(items, repositoryFullName, number)
            case None => forall i :: 0 <= i < |items| ==> !IsPull(items[i], repositoryFullName, number)
            case Some(item) => exists i :: IsFirstPull(items, repositoryFullName, number, i) && items[i] == item
  {
    if items != [] && IsPull(items[0], repositoryFullName, number) {
      assert IsFirstPull(items, repositoryFullName, number, 0);
    } else if items != [] {
      var rest := items[1..];
      FirstPullIsFound(rest, repositoryFullName, number);
      var found := L.FindPullRequest(items, repositoryFullName, number);
      if found.Some? {
        var i :| IsFirstPull(rest, repositoryFullName, number, i) && rest[i] == found.value;
        forall j | 0 <= j < i + 1 ensures !IsPull(items[j], repositoryFullName, number) {
          if j > 0 { assert items[j] == rest[j - 1]; }
        }
        assert IsFirstPull(items, repositoryFullName, number, i + 1);
      } else {
        forall j | 0 <= j < |items| ensures !IsPull(items[j], repositoryFullName, number) {
          if j > 0 { assert items[j] == rest[j - 1]; }
        }
      }
    }
  }

  lemma FirstPullIs(items: seq<WorkItem>, repositoryFullName: string, number: nat, i: int)
    requires IsFirstPull(items, repositoryFullName, number, i)
    ensures L.FindPullRequest(items, repositoryFullName, number) == Some(items[i])
  {
    FirstPullIsFound(items, repositoryFullName, number);
    var found := L.FindPullRequest(items, repositoryFullName, number);
    assert found.Some?;
    var j :| IsFirstPull(items, repositoryFullName, number, j) && items[j] == found.value;
    assert i == j;
  }

  // ----- Observations -----

  predicate AtExpectedShas(monitor: M.Monitor, item: WorkItem) {
    item.headSha == Some(monitor.expectedHeadSha) && item.baseSha == Some(monitor.expectedBaseSha)
  }

  predicate Conflicts(item: WorkItem) { item.hasConflicts == Some(true) || item.mergeable == Some(false) }

  predicate NeedsWork(item: WorkItem) {
    || item.ciHealth == Some("failing")
    || item.reviewDecision == Some("changesRequested") || item.reviewDecision == Some("approvalDismissed")
  }

  /** A pull request that may be merged: at the expected SHAs, passing, approved, without conflicts and mergeable. */
  predicate IsGreen(monitor: M.Monitor, item: WorkItem) {
    && AtExpectedShas(monitor, item)
    && item.ciHealth == Some("passing") && item.reviewDecision == Some("approved")
    && item.hasConflicts != Some(true) && item.mergeable == Some(true)
  }

  /** The item has two well-formed SHAs and only words that the engine knows. */
  predicate IsReadable(item: WorkItem) {
    && item.headSha.Some? && M.ValidSha(item.headSha.value) && item.baseSha.Some? && M.ValidSha(item.baseSha.value)
    && (item.ciHealth.Some? ==> item.ciHealth.value in {"passing", "failing", "pending", "unknown"})
    && (item.reviewDecision.Some? ==>
          item.reviewDecision.value in {"approved", "changesRequested", "approvalDismissed", "reviewRequired"})
  }

  /** The stored monitor, not settled yet, can be observed on the i-th item of a recent snapshot. Success
      needs a task that is being monitored. */
  predicate Observable(db: Db, id: MonitorId, now: Instant, i: int) {
    && id in db.monitors
    && var monitor := db.monitors[id].payload;
       && (monitor.state.Pending? || monitor.state.RepairNeeded?)
       && HasRecentSnapshot(db, monitor.repositoryFullName, now)
       && var items := db.snapshots[monitor.repositoryFullName].snapshot.workItems;
          && IsFirstPull(items, monitor.repositoryFullName, monitor.pullRequestNumber, i)
          && IsReadable(items[i])
          && (IsGreen(monitor, items[i]) ==>
                monitor.taskId in db.tasks && db.tasks[monitor.taskId].id == monitor.taskId
                && db.tasks[monitor.taskId].state.Monitoring?)
  }

  function StateAfter(monitor: M.Monitor, item: WorkItem): M.MonitorState {
    if !AtExpectedShas(monitor, item) || Conflicts(item) then M.Blocked
    else if item.mergeable == None then M.MonitorState.Pending
    else if NeedsWork(item) then if monitor.repairIteration < monitor.repairBudget then M.RepairNeeded else M.Blocked
    else if IsGreen(monitor, item) then M.Succeeded
    else M.MonitorState.Pending
  }

  predicate AllInvalidated(before: map<ApprovalId, ApprovalRow>, after: map<ApprovalId, ApprovalRow>, taskId: TaskId) {
    && after.Keys == before.Keys
    && forall a :: a in before ==>
         after[a] == if before[a].approval.fingerprint.taskId == taskId then ApprovalRow(before[a].approval, true) else before[a]
  }

  /** What one saved observation of an item leaves in the tables. */
  predicate ObservedOn(before: Db, after: Db, monitor: M.Monitor, item: WorkItem, now: Instant) {
    && monitor.id in after.monitors
    && after.monitors == before.monitors[monitor.id := after.monitors[monitor.id]]
    && var next := after.monitors[monitor.id].payload;
       && next.state == StateAfter(monitor, item)
       && (next.state.Succeeded? <==> IsGreen(monitor, item))
       && M.SameTarget(monitor, next)
       && next.repairIteration == monitor.repairIteration + (if next.state.RepairNeeded? then 1 else 0)
       && after.monitors[monitor.id].state == next.state && after.monitors[monitor.id].nextAttemptAt == next.nextAttemptAt
       && (next.nextAttemptAt.Some? <==> next.state.Pending?)
       && (if next.state.Blocked? || next.state.RepairNeeded? then AllInvalidated(before.approvals, after.approvals, monitor.taskId)
           else after.approvals == before.approvals)
       && (if next.state.Succeeded? then
             monitor.taskId in before.tasks
             && after.tasks == before.tasks[monitor.taskId := Moved(before.tasks[monitor.taskId], AwaitingMergeApproval, now)]
           else after.tasks == before.tasks && after.timeline == before.timeline)
  }

  /** How the engine reads an item. */
  lemma ReadingIsExact(item: WorkItem, at: Instant)
    ensures var o := L.ObservationOf(item, at);
            && (o.Some? && M.ValidSha(o.value.headSha) && M.ValidSha(o.value.baseSha) <==> IsReadable(item))
            && (o.Some? ==>
                  && Some(o.value.headSha) == item.headSha && Some(o.value.baseSha) == item.baseSha
                  && o.value.networkAvailable && o.value.repositoryAccessible && o.value.rateLimitedUntil == None
                  && (o.value.ci.Success? <==> item.ciHealth == Some("passing"))
                  && (o.value.ci.Failure? <==> item.ciHealth == Some("failing"))
                  && (o.value.review.Approved? <==> item.reviewDecision == Some("approved"))
                  && (o.value.review.ChangesRequested? || o.value.review.ApprovalDismissed? <==>
                        item.reviewDecision == Some("changesRequested") || item.reviewDecision == Some("approvalDismissed"))
                  && (o.value.mergeability.Conflicting? <==> Conflicts(item))
                  && (o.value.mergeability.Mergeable? <==> item.mergeable == Some(true) && item.hasConflicts != Some(true))
                  && !o.value.mergeability.InaccessibleFork?)
  {
  }

  /** The verdict on an item as it was read. */
  lemma VerdictIsExact(monitor: M.Monitor, item: WorkItem, at: Instant, now: Instant)
    requires L.ObservationOf(item, at).Some?
    ensures var next := M.Observed(monitor, L.ObservationOf(item, at).value, now);
            && next.state == StateAfter(monitor, item)
            && (next.state.Succeeded? <==> IsGreen(monitor, item))
            && M.SameTarget(monitor, next)
            && next.repairIteration == monitor.repairIteration + (if next.state.RepairNeeded? then 1 else 0)
            && (next.nextAttemptAt.Some? <==> next.state.Pending?)
  {
    ReadingIsExact(item, at);
    var observation := L.ObservationOf(item, at).value;
    assert M.SameIdentity(monitor, observation) <==> AtExpectedShas(monitor, item);
    assert M.AsksForRepair(observation) <==> NeedsWork(item);
    assert item.mergeable.Some? ==> item.mergeable.value == true || item.mergeable.value == false;
    assert observation.mergeability.Unknown? <==> !Conflicts(item) && item.mergeable == None;
  }

  /** An observation goes through exactly when the stored monitor is observable on some item. */
  lemma ObservedExactly(db: Db, id: MonitorId, now: Instant)
    ensures L.CanObserveMonitor(db, id, now) <==> exists i :: Observable(db, id, now, i)
  {
    if id in db.monitors && HasRecentSnapshot(db, db.monitors[id].payload.repositoryFullName, now) {
      var monitor := db.monitors[id].payload;
      var row := db.snapshots[monitor.repositoryFullName];
      var items := row.snapshot.workItems;
      FirstPullIsFound(items, monitor.repositoryFullName, monitor.pullRequestNumber);
      var found := L.FindPullRequest(items, monitor.repositoryFullName, monitor.pullRequestNumber);
      if found.Some? {
        var i :| IsFirstPull(items, monitor.repositoryFullName, monitor.pullRequestNumber, i) && items[i] == found.value;
        ObservableOn(db, id, now, i);
        forall j | Observable(db, id, now, j) ensures i == j {
        }
      }
    }
  }

  lemma ObservableOn(db: Db, id: MonitorId, now: Instant, i: int)
    requires id in db.monitors && HasRecentSnapshot(db, db.monitors[id].payload.repositoryFullName, now)
    requires var monitor := db.monitors[id].payload;
             IsFirstPull(db.snapshots[monitor.repositoryFullName].snapshot.workItems, monitor.repositoryFullName,
                         monitor.pullRequestNumber, i)
    ensures L.CanObserveMonitor(db, id, now) <==> Observable(db, id, now, i)
  {
    var monitor := db.monitors[id].payload;
    var row := db.snapshots[monitor.repositoryFullName];
    var item := row.snapshot.workItems[i];
    FirstPullIs(row.snapshot.workItems, monitor.repositoryFullName, monitor.pullRequestNumber, i);
    ReadingIsExact(item, row.syncedAt);
    if L.ObservationOf(item, row.syncedAt).Some? {
      VerdictIsExact(monitor, item, row.syncedAt, now);
    }
  }

  /** What saving an observed monitor leaves. */
  lemma SavingLeaves(db: Db, next: M.Monitor)
    ensures var saved := SaveMonitor(db, next);
            && next.id in saved.monitors && saved.monitors[next.id].payload == next
            && saved.monitors[next.id].state == next.state && saved.monitors[next.id].nextAttemptAt == next.nextAttemptAt
            && saved.monitors == db.monitors[next.id := saved.monitors[next.id]]
            && saved.tasks == db.tasks && saved.timeline == db.timeline && saved.approvals == db.approvals
  {
  }

  lemma OpeningLeaves(db: Db, next: M.Monitor, task: Task)
    ensures var both := SaveMonitorWithTaskEvent(db, next, task);
            && both.monitors == SaveMonitor(db, next).monitors
            && both.tasks == db.tasks[task.id := task] && both.approvals == db.approvals
  {
  }

  /** A saved observation settles the monitor, its task and its approvals as the item itself demands. */
  lemma ObservationLeaves(db: Db, id: MonitorId, now: Instant, i: int)
    requires Observable(db, id, now, i)
    ensures L.CanObserveMonitor(db, id, now)
    ensures var monitor := db.monitors[id].payload;
            ObservedOn(db, L.ObserveMonitor(db, id, now, true), monitor,
                       db.snapshots[monitor.repositoryFullName].snapshot.workItems[i], now)
  {
    var monitor := db.monitors[id].payload;
    var row := db.snapshots[monitor.repositoryFullName];
    var item := row.snapshot.workItems[i];
    ObservableOn(db, id, now, i);
    FirstPullIs(row.snapshot.workItems, monitor.repositoryFullName, monitor.pullRequestNumber, i);
    VerdictIsExact(monitor, item, row.syncedAt, now);
    var next := M.Observed(monitor, L.ObservationOf(item, row.syncedAt).value, now);
    var cleared := if M.OutcomeOf(next).invalidateApprovals then InvalidateTaskApprovals(db, monitor.taskId) else db;
    assert next.taskId == monitor.taskId && next.id == monitor.id;
    if next.state.Succeeded? {
      SavingLeaves(db, next);
      OpeningLeaves(db, next, Moved(db.tasks[monitor.taskId], AwaitingMergeApproval, now));
    } else {
      SavingLeaves(cleared, next);
    }
  }

  /** Both together, for every item. */
  lemma ObservationIsRuled(db: Db, id: MonitorId, now: Instant)
    ensures L.CanObserveMonitor(db, id, now) <==> exists i :: Observable(db, id, now, i)
    ensures forall i :: Observable(db, id, now, i) ==> Ruled(db, L.ObserveMonitor(db, id, now, true), id, now, i)
  {
    ObservedExactly(db, id, now);
    forall i | Observable(db, id, now, i) ensures Ruled(db, L.ObserveMonitor(db, id, now, true), id, now, i) {
      ObservationLeaves(db, id, now, i);
    }
  }

  predicate Ruled(before: Db, after: Db, id: MonitorId, now: Instant, i: int)
    requires Observable(before, id, now, i)
  {
    var monitor := before.monitors[id].payload;
    ObservedOn(before, after, monitor, before.snapshots[monitor.repositoryFullName].snapshot.workItems[i], now)
  }

  // ----- Starting a monitor -----

  /** A task's own pull request: the one it captured, or one on the branch prepared for it. */
  predicate IsOwnPull(task: Task, item: WorkItem, request: L.MonitorStartRequest) {
    match task.source
    case GitHubPullRequest(_, fullName, number, _, _, baseSha, _, headSha) =>
      && request.repositoryFullName == fullName && request.pullRequestNumber == number
      && request.expectedHeadSha == headSha && request.expectedBaseSha == baseSha
    case GitHubIssue(_, fullName, _, _) =>
      request.repositoryFullName == fullName && item.headRef == Some("patchwright/" + IdText(task.id))
    case LocalRequest => item.headRef == Some("patchwright/" + IdText(task.id))
  }

  /** A monitored task, its contract and its binding agree on the repository, a recent snapshot shows the
      pull request at the expected SHAs, and it is the task's own. */
  predicate Startable(db: Db, request: L.MonitorStartRequest, now: Instant, i: int) {
    && M.ValidRepositoryName(request.repositoryFullName)
    && request.pullRequestNumber > 0 && request.repairBudget > 0
    && M.ValidSha(request.expectedHeadSha) && M.ValidSha(request.expectedBaseSha)
    && request.taskId in db.tasks
    && var task := db.tasks[request.taskId];
       && task.state.Monitoring? && task.id in db.contracts && task.bindingId.Some? && task.bindingId.value in db.bindings
       && db.contracts[task.id].source == task.source && db.contracts[task.id].bindingId == task.bindingId.value
       && db.bindings[task.bindingId.value].fullName == request.repositoryFullName
       && HasRecentSnapshot(db, request.repositoryFullName, now)
       && var items := db.snapshots[request.repositoryFullName].snapshot.workItems;
          && IsFirstPull(items, request.repositoryFullName, request.pullRequestNumber, i)
          && items[i].headSha == Some(request.expectedHeadSha) && items[i].baseSha == Some(request.expectedBaseSha)
          && IsOwnPull(task, items[i], request)
  }

  lemma StartableOn(db: Db, request: L.MonitorStartRequest, now: Instant, i: int)
    requires HasRecentSnapshot(db, request.repositoryFullName, now)
    requires IsFirstPull(db.snapshots[request.repositoryFullName].snapshot.workItems, request.repositoryFullName,
                         request.pullRequestNumber, i)
    ensures L.CanStartMonitor(db, request, now) <==> Startable(db, request, now, i)
  {
    FirstPullIs(db.snapshots[request.repositoryFullName].snapshot.workItems, request.repositoryFullName,
                request.pullRequestNumber, i);
  }

  /** A monitor starts exactly for such a request. */
  lemma StartedExactly(db: Db, request: L.MonitorStartRequest, now: Instant)
    ensures L.CanStartMonitor(db, request, now) <==> exists i :: Startable(db, request, now, i)
  {
    if HasRecentSnapshot(db, request.repositoryFullName, now) {
      var items := db.snapshots[request.repositoryFullName].snapshot.workItems;
      FirstPullIsFound(items, request.repositoryFullName, request.pullRequestNumber);
      if i :| IsFirstPull(items, request.repositoryFullName, request.pullRequestNumber, i) {
        StartableOn(db, request, now, i);
        forall j | Startable(db, request, now, j) ensures i == j {
        }
      }
    }
  }

  /** It starts pending and due at once, for exactly what was requested. */
  lemma StartLeaves(db: Db, id: MonitorId, request: L.MonitorStartRequest, now: Instant)
    requires L.CanStartMonitor(db, request, now) && id !in db.monitors
    ensures var after := L.StartMonitor(db, id, request, now);
            && id in after.monitors && after == db.(monitors := db.monitors[id := after.monitors[id]])
            && var monitor := after.monitors[id].payload;
               && monitor.taskId == request.taskId && monitor.repositoryFullName == request.repositoryFullName
               && monitor.pullRequestNumber == request.pullRequestNumber
               && monitor.expectedHeadSha == request.expectedHeadSha && monitor.expectedBaseSha == request.expectedBaseSha
               && monitor.state.Pending? && monitor.repairIteration == 0 && monitor.repairBudget == request.repairBudget
               && monitor.nextAttemptAt == Some(db.snapshots[request.repositoryFullName].syncedAt)
  {
  }
}
