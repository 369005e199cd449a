/** What a reconciliation concludes from a snapshot, said about the snapshot's items themselves. */
module ReconcileRules {
  import opened Base
  import opened Sources
  import opened Domain
  import opened GitHubActions
  import opened Tables
  import D = DeliverySpec
  import DeliveryRules

  predicate IsFirst(items: seq<WorkItem>, number: nat, i: int) {
    0 <= i < |items| && items[i].number == number && forall j :: 0 <= j < i ==> items[j].number != number
  }

  predicate SameRepository(source: TaskSource, snapshot: Snapshot) {
    && !source.LocalRequest?
    && snapshot.repositoryId == source.repositoryId && snapshot.repositoryFullName == source.repositoryFullName
  }

  /** A pull request counts only at the head that the task captured; a task without one captured none. */
  predicate AtCapturedHead(source: TaskSource, item: WorkItem) {
    && item.kind.PullRequest?
    && item.headSha == if source.GitHubPullRequest? then Some(source.headSha) else None
  }

  predicate IsDone(source: TaskSource, item: WorkItem) {
    || (AtCapturedHead(source, item) && item.merged == Some(true))
    || (item.kind.Issue? && item.state == "closed" && item.stateReason != Some("not_planned"))
  }

  predicate IsUnmerged(source: TaskSource, item: WorkItem) {
    AtCapturedHead(source, item) && item.merged != Some(true)
  }

  /** The first item with the task's number shows its outcome. */
  ghost predicate ShowsDone(source: TaskSource, snapshot: Snapshot) {
    && SameRepository(source, snapshot)
    && exists i :: IsFirst(snapshot.workItems, source.number, i) && IsDone(source, snapshot.workItems[i])
  }

  ghost predicate ShowsUnmerged(source: TaskSource, snapshot: Snapshot) {
    && SameRepository(source, snapshot)
    && exists i :: IsFirst(snapshot.workItems, source.number, i) && IsUnmerged(source, snapshot.workItems[i])
  }

  /** The states that lie between a task and its completion; no other state is reconciled. */
  function Remaining(state: TaskState): Option<seq<TaskState>> {
    match state
    case AwaitingDeliveryApproval => Some([Delivering, TaskState.Monitoring, AwaitingMergeApproval, Merging, Completed])
    case Delivering => Some([TaskState.Monitoring, AwaitingMergeApproval, Merging, Completed])
    case Monitoring => Some([AwaitingMergeApproval, Merging, Completed])
    case AwaitingMergeApproval => Some([Merging, Completed])
    case Merging => Some([Completed])
    case Completed => Some([])
    case _ => None
  }

  ghost predicate Reconcilable(task: Task, snapshot: Snapshot, ambiguous: Option<Key>) {
    || (ShowsDone(task.source, snapshot) && Remaining(task.state).Some?)
    || (ShowsUnmerged(task.source, snapshot) && task.state.Merging? && ambiguous.Some?)
  }

  /** A done item completes the task, and succeeds the ambiguous row of a merging one. */
  predicate Completes(before: Db, after: Db, task: Task, ambiguous: Option<Key>, now: Instant)
    requires Remaining(task.state).Some? && (ambiguous.Some? ==> ambiguous.value in before.deliveries)
  {
    && DeliveryRules.KeepsRest(before, after)
    && DeliveryRules.Walked(before, after, task, Remaining(task.state).value, now)
    && (task.state.Completed? ==> after == before)
    && (!task.state.Completed? ==> task.id in after.tasks && after.tasks[task.id].state.Completed?)
    && after.approvals == before.approvals
    && if task.state.Merging? && ambiguous.Some? then
         DeliveryRules.OnlyRow(before, after, ambiguous.value, DeliveryResult.Succeeded(true))
       else after.deliveries == before.deliveries
  }

  /** An unmerged one fails the ambiguous row and returns the merging task to its gate without approvals. */
  predicate Returns(before: Db, after: Db, task: Task, key: Key, now: Instant)
    requires key in before.deliveries
  {
    && DeliveryRules.KeepsRest(before, after)
    && DeliveryRules.Walked(before, after, task, [AwaitingMergeApproval], now)
    && DeliveryRules.OnlyRow(before, after, key, DeliveryResult.Failed)
    && after.approvals.Keys == before.approvals.Keys
    && forall a :: a in before.approvals ==>
         after.approvals[a] == if before.approvals[a].approval.fingerprint.taskId == task.id
                               then ApprovalRow(before.approvals[a].approval, true) else before.approvals[a]
  }

  lemma {:induction false} FirstNumberedIsFirst(items: seq<WorkItem>, number: nat)
    ensures match D.FirstNumbered(items, number)
            case None => forall i :: 0 <= i < |items| ==> items[i].number != number
            case Some(item) => exists i :: IsFirst(items, number, i) && items[i] == item
  {
    if items != [] && items[0].number == number {
      assert IsFirst(items, number, 0);
    } else if items != [] {
      var rest := items[1..];
      FirstNumberedIsFirst(rest, number);
      if D.FirstNumbered(items, number).Some? {
        var i :| IsFirst(rest, number, i) && rest[i] == D.FirstNumbered(items, number).value;
        forall j | 0 <= j < i + 1 ensures items[j].number != number {
          if j > 0 { assert items[j] == rest[j - 1]; }
        }
        assert IsFirst(items, number, i + 1);
      } else {
        forall j | 0 <= j < |items| ensures items[j].number != number {
          if j > 0 { assert items[j] == rest[j - 1]; }
        }
      }
    }
  }

  lemma FirstIsUnique(items: seq<WorkItem>, number: nat, i: int, j: int)
    requires IsFirst(items, number, i) && IsFirst(items, number, j)
    ensures i == j
  {
  }

  /** What the lookup of the remote item means. */
  lemma ItemShows(db: Db, taskId: TaskId, snapshot: Snapshot)
    requires taskId in db.tasks
    ensures var source, item := db.tasks[taskId].source, D.ReconciledItem(db, taskId, snapshot);
            && (ShowsDone(source, snapshot) <==> item.Ok? && D.RemotelyCompleted(item.value))
            && (ShowsUnmerged(source, snapshot) <==>
                  item.Ok? && !D.RemotelyCompleted(item.value) && item.value.kind.PullRequest?)
  {
    var source := db.tasks[taskId].source;
    if SameRepository(source, snapshot) {
      var items, number := snapshot.workItems, source.number;
      FirstNumberedIsFirst(items, number);
      if D.FirstNumbered(items, number).Some? {
        var i :| IsFirst(items, number, i) && items[i] == D.FirstNumbered(items, number).value;
        forall j | IsFirst(items, number, j) ensures items[j] == items[i] {
          FirstIsUnique(items, number, i, j);
        }
      }
    }
  }

  lemma RemainingIsThePath(state: TaskState)
    ensures D.CompletionPath(state) == if state.Completed? then None else Remaining(state)
  {
  }

  lemma CompletesExactly(db: Db, task: Task, ambiguous: Option<Key>, now: Instant)
    requires Remaining(task.state).Some? && !task.state.Completed?
    requires ambiguous.Some? ==> ambiguous.value in db.deliveries
    ensures var key := if task.state.Merging? then ambiguous else None;
            var recorded := if key.Some? then RecordDelivery(db, key.value, DeliveryResult.Succeeded(true)) else db;
            Completes(db, SaveVersions(recorded, task.id, Versions(task, Remaining(task.state).value, now)), task, ambiguous, now)
  {
    var key := if task.state.Merging? then ambiguous else None;
    var recorded := if key.Some? then RecordDelivery(db, key.value, DeliveryResult.Succeeded(true)) else db;
    DeliveryRules.SavingWalks(db, recorded, task, Remaining(task.state).value, now);
    assert Last(Remaining(task.state).value).Completed?;
  }

  lemma ReturnsExactly(db: Db, task: Task, key: Key, now: Instant)
    requires key in db.deliveries
    ensures Returns(db, CompleteFailedMerge(db, key, Moved(task, AwaitingMergeApproval, now)), task, key, now)
  {
    var recorded := InvalidateTaskApprovals(RecordDelivery(db, key, DeliveryResult.Failed), task.id);
    DeliveryRules.SavingWalks(db, recorded, task, [AwaitingMergeApproval], now);
    assert Versions(task, [AwaitingMergeApproval], now) == [Moved(task, AwaitingMergeApproval, now)];
  }

  /** A reconciliation goes through exactly when the first item with the task's number is done and the task
      stands in a reconcilable state, or is an unmerged pull request at the captured head and the task
      merges with an ambiguous row; the first completes the task, the second returns it to its gate. */
  lemma ReconciledExactly(db: Db, taskId: TaskId, snapshot: Snapshot, ambiguous: Option<Key>, now: Instant)
    requires ambiguous.Some? ==> ambiguous.value in db.deliveries
    ensures var r := D.Reconcile(db, taskId, snapshot, ambiguous, now);
            && (r.Ok? <==> taskId in db.tasks && Reconcilable(db.tasks[taskId], snapshot, ambiguous))
            && (r.Ok? ==>
                  if ShowsDone(db.tasks[taskId].source, snapshot)
                  then Remaining(db.tasks[taskId].state).Some? && Completes(db, r.value, db.tasks[taskId], ambiguous, now)
                  else ambiguous.Some? && Returns(db, r.value, db.tasks[taskId], ambiguous.value, now))
  {
    if taskId in db.tasks {
      var task := db.tasks[taskId];
      ItemShows(db, taskId, snapshot);
      RemainingIsThePath(task.state);
      if Remaining(task.state).Some? && !task.state.Completed? {
        CompletesExactly(db, task, ambiguous, now);
      }
      if ambiguous.Some? {
        ReturnsExactly(db, task, ambiguous.value, now);
      }
    }
  }
}
