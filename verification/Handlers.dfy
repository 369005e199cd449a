/** The handlers as they work on a live store: they load records, change them step by step and write
    them back. Each is tied to what one action of the protocol does to the tables. */
module Handlers {
  import opened Base
  import opened Sources
  import opened Domain
  import opened Contract
  import opened Capabilities
  import opened GitHubActions
  import opened Policy
  import opened Tables
  import opened Store
  import D = DeliverySpec
  import DeliveryRules
  import ReconcileRules
  import L = LifecycleSpec
  import M = Monitoring

  /** One lifecycle edge of a handler's table. */
  datatype Edge = Edge(from: TaskState, to: TaskState)

  function Targets(edges: seq<Edge>): seq<TaskState> {
    seq(|edges|, i requires 0 <= i < |edges| => edges[i].to)
  }

  /** Edges that start where the one before them ends. */
  predicate IsChain(edges: seq<Edge>) {
    && (forall i :: 0 <= i < |edges| ==> edges[i].from.Permits(edges[i].to))
    && forall i :: 0 < i < |edges| ==> edges[i].from == edges[i - 1].to
  }

  /** The position of a state in a lifecycle, if it is there. */
  method Position(edges: seq<Edge>, state: TaskState) returns (start: Option<nat>)
    ensures StartsAt(edges, state, start)
    ensures start.Some? ==> forall i :: 0 <= i < start.value ==> edges[i].from != state
  {
    for i := 0 to |edges|
      invariant forall j :: 0 <= j < i ==> edges[j].from != state
    {
      if edges[i].from == state {
        return Some(i);
      }
    }
    return None;
  }

  /** Moves a task along the rest of a lifecycle and collects every version on the way. */
  method Walk(task: TaskRecord, edges: seq<Edge>, now: Instant) returns (events: seq<Task>)
    requires IsChain(edges) && (edges != [] ==> edges[0].from == task.state)
    modifies task
    ensures events == Versions(old(task.Value()), Targets(edges), now)
    ensures task.Value() == if edges == [] then old(task.Value()) else Last(events)
  {
    events := [];
    for i := 0 to |edges|
      invariant events == Versions(old(task.Value()), Targets(edges)[..i], now)
      invariant task.Value() == if i == 0 then old(task.Value()) else Moved(old(task.Value()), edges[i - 1].to, now)
    {
      var _ := task.Transition(edges[i].to, now);
      events := events + [task.Value()];
      assert Targets(edges)[..i + 1] == Targets(edges)[..i] + [edges[i].to];
    }
    assert Targets(edges)[..|edges|] == Targets(edges);
  }

  predicate StartsAt(edges: seq<Edge>, state: TaskState, start: Option<nat>) {
    match start
    case Some(n) => n < |edges| && edges[n].from == state
    case None => forall i :: 0 <= i < |edges| ==> edges[i].from != state
  }

  function Rest(edges: seq<Edge>, start: Option<nat>): seq<TaskState>
    requires start.Some? ==> start.value <= |edges|
  {
    if start.Some? then Targets(edges[start.value..]) else []
  }

  /** Finds a task's place in a lifecycle and walks the rest of it. */
  method LifecycleEvents(value: Task, edges: seq<Edge>, now: Instant) returns (start: Option<nat>, events: seq<Task>)
    requires IsChain(edges)
    ensures StartsAt(edges, value.state, start)
    ensures events == Versions(value, Rest(edges, start), now)
  {
    var task := new TaskRecord(value);
    start := Position(edges, task.state);
    if start.None? {
      return start, [];
    }
    events := Walk(task, edges[start.value..], now);
  }

  // ----- Deliveries -----

  method ApproveDelivery(store: EventStore, preview: D.DeliveryPreview, id: ApprovalId, approvedBy: string, now: Instant,
                         worktreeHead: Option<Sha>) returns (r: Result<Approval, D.DeliveryError>)
    modifies store
    ensures var spec := D.ApproveDelivery(old(store.Contents()), preview, id, approvedBy, now, worktreeHead);
            && (r.Ok? <==> spec.Ok?)
            && (r.Ok? ==> store.Contents() == spec.value && r.value == D.DeliveryApproval(preview, id, Trim(approvedBy), now))
            && (r.Err? ==> store.Contents() == old(store.Contents()) && r.error == spec.error)
    ensures r.Ok? <==> DeliveryRules.IsCurrent(old(store.Contents()), preview, worktreeHead) && Trim(approvedBy) != ""
    ensures r.Ok? ==> CanApprove(r.value.class_, r.value.capability, r.value.fingerprint, r.value.approvedBy,
                                 r.value.approvedAt, r.value.expiresAt)
  {
    DeliveryRules.ApprovedExactly(store.Contents(), preview, id, approvedBy, now, worktreeHead);
    var current := D.PreviewDelivery(store.Contents(), preview.taskId, preview.action, worktreeHead);
    if current.Err? {
      return Err(current.error);
    }
    if current.value != preview {
      return Err(D.PreviewStale);
    }
    var capability := preview.action.ActionCapability();
    var class_ := if IsMergeCapability(capability) then ApprovalClass.Merge else GitHubDelivery;
    DeliveryRules.DemandIsTheActions(preview.action.action);
    TrimTwice(approvedBy);
    if !CanApprove(class_, capability, preview.fingerprint, approvedBy, now, now + APPROVAL_DURATION) {
      return Err(D.ApprovalInvalid);
    }
    var approval := Approval(id, class_, capability, preview.fingerprint, Trim(approvedBy), now, now + APPROVAL_DURATION);
    store.PutApproval(approval);
    return Ok(approval);
  }

  lemma {:induction false} TrimTwice(text: string)
    ensures Trim(Trim(text)) == Trim(text)
    decreases |text|
  {
    if text == "" {
    } else if IsBlank(text[0]) {
      TrimTwice(text[1..]);
    } else if IsBlank(text[|text| - 1]) {
      TrimTwice(text[..|text| - 1]);
    }
  }

  /** Checks the preview against the tables and asks policy. */
  method CheckExecution(store: EventStore, preview: D.DeliveryPreview, approvalId: ApprovalId,
                        automationDisabled: bool, now: Instant, worktreeHead: Option<Sha>)
    returns (r: Result<(), D.DeliveryError>)
    ensures r == D.CheckExecution(store.Contents(), preview, approvalId, automationDisabled, now, worktreeHead)
    ensures r.Ok? <==> DeliveryRules.IsJustified(store.Contents(), preview, approvalId, automationDisabled, now, worktreeHead)
  {
    DeliveryRules.CheckedExactly(store.Contents(), preview, approvalId, automationDisabled, now, worktreeHead);
    var current := D.PreviewDelivery(store.Contents(), preview.taskId, preview.action, worktreeHead);
    if current.Err? {
      return Err(current.error);
    }
    if current.value != preview {
      return Err(D.PreviewStale);
    }
    var approval := store.LoadApproval(approvalId);
    if approval.None? {
      return Err(D.ApprovalMissing);
    }
    match Authorize(automationDisabled, preview.action.ActionCapability(), preview.fingerprint, approval, now) {
      case Allowed => return Ok(());
      case ApprovalRequired => return Err(D.ApprovalInvalid);
      case Denied => return Err(D.PolicyDenied);
    }
  }

  /** The task version that goes with a merge claim. */
  method MergeEvent(store: EventStore, preview: D.DeliveryPreview, now: Instant) returns (taskEvent: Option<Task>)
    requires preview.taskId in store.tasks
    requires store.tasks[preview.taskId].state == D.GateState(preview.action.ActionCapability())
    ensures taskEvent == D.ClaimEvent(store.Contents(), preview, now)
  {
    if !IsMergeCapability(preview.action.ActionCapability()) {
      return None;
    }
    var loaded := store.LoadTask(preview.taskId);
    var task := new TaskRecord(loaded.value);
    var _ := task.Transition(Merging, now);
    return Some(task.Value());
  }

  /** Claims the key once everything is checked, for a merge together with the task's move to merging. */
  method AuthorizeExecution(store: EventStore, preview: D.DeliveryPreview, approvalId: ApprovalId,
                            automationDisabled: bool, now: Instant, worktreeHead: Option<Sha>)
    returns (r: Result<Key, D.DeliveryError>)
    modifies store
    ensures var spec := D.AuthorizeExecution(old(store.Contents()), preview, approvalId, automationDisabled, now, worktreeHead);
            && (r.Ok? <==> spec.Ok?)
            && (r.Ok? ==> store.Contents() == spec.value && r.value == preview.action.IdempotencySha256())
            && (r.Err? ==> store.Contents() == old(store.Contents()) && r.error == spec.error)
    ensures r.Ok? <==>
              && DeliveryRules.IsJustified(old(store.Contents()), preview, approvalId, automationDisabled, now, worktreeHead)
              && Claimable(old(store.deliveries), preview.action.IdempotencySha256())
  {
    var checked := CheckExecution(store, preview, approvalId, automationDisabled, now, worktreeHead);
    if checked.Err? {
      return Err(checked.error);
    }
    var key := preview.action.IdempotencySha256();
    var taskEvent := MergeEvent(store, preview, now);
    var claimed := store.ClaimDeliveryWithTaskEvent(key, taskEvent, now);
    if !claimed {
      return Err(D.DeliveryError.AlreadyClaimed);
    }
    return Ok(key);
  }

  const MERGE_LIFECYCLE: seq<Edge> := [Edge(Merging, Completed)]
  const CLOSE_LIFECYCLE: seq<Edge> :=
    [Edge(AwaitingDeliveryApproval, Delivering), Edge(Delivering, TaskState.Monitoring), Edge(TaskState.Monitoring, Completed)]
  const MONITORING_LIFECYCLE: seq<Edge> :=
    [Edge(AwaitingDeliveryApproval, Delivering), Edge(Delivering, TaskState.Monitoring)]

  predicate IsTerminalDelivery(capability: Capability, merged: bool) {
    capability.CloseIssue? || capability.ClosePullRequest? || (capability.MergePullRequest? && merged)
  }

  predicate EntersMonitoring(capability: Capability) {
    capability.CreatePullRequest? || capability.PostReview? || capability.UpdatePullRequestBranch? || capability.ReadyPullRequest?
  }

  function LifecycleOf(capability: Capability): seq<Edge> {
    if capability.MergePullRequest? then MERGE_LIFECYCLE
    else if EntersMonitoring(capability) then MONITORING_LIFECYCLE
    else CLOSE_LIFECYCLE
  }

  lemma LifecyclesAreChains(capability: Capability)
    ensures IsChain(LifecycleOf(capability)) && IsChain(COMPLETION_LIFECYCLE)
  {
  }

  lemma MonitoringLifecycleIsPath(state: TaskState, start: Option<nat>)
    requires StartsAt(MONITORING_LIFECYCLE, state, start)
    ensures Rest(MONITORING_LIFECYCLE, start) == D.MonitorPath(state)
  {
    assert MONITORING_LIFECYCLE[0].from.AwaitingDeliveryApproval? && MONITORING_LIFECYCLE[1].from.Delivering?;
  }

  lemma CloseLifecycleIsPath(state: TaskState, start: Option<nat>)
    requires StartsAt(CLOSE_LIFECYCLE, state, start)
    ensures Rest(CLOSE_LIFECYCLE, start) == D.ClosePath(state)
  {
    assert CLOSE_LIFECYCLE[0].from.AwaitingDeliveryApproval? && CLOSE_LIFECYCLE[1].from.Delivering?;
    assert CLOSE_LIFECYCLE[2].from.Monitoring?;
  }

  lemma MergeLifecycleIsPath(state: TaskState, start: Option<nat>)
    requires StartsAt(MERGE_LIFECYCLE, state, start)
    ensures Rest(MERGE_LIFECYCLE, start) == if state.Merging? then [Completed] else []
  {
    assert MERGE_LIFECYCLE[0].from.Merging?;
  }

  /** The tail of a lifecycle that starts at a state is the success path from that state. */
  lemma LifecycleIsSuccessPath(capability: Capability, merged: bool, state: TaskState, start: Option<nat>)
    requires IsTerminalDelivery(capability, merged) || EntersMonitoring(capability)
    requires StartsAt(LifecycleOf(capability), state, start)
    ensures Rest(LifecycleOf(capability), start) == D.SuccessPath(capability, merged, state)
  {
    if capability.MergePullRequest? {
      MergeLifecycleIsPath(state, start);
    } else if EntersMonitoring(capability) {
      MonitoringLifecycleIsPath(state, start);
    } else {
      CloseLifecycleIsPath(state, start);
    }
  }

  /** Records a success and walks the task as far as that success carries it, in one transaction. */
  method CompleteSuccessfulDelivery(store: EventStore, preview: D.DeliveryPreview, key: Key, merged: bool, now: Instant)
    returns (r: Result<(), D.DeliveryError>)
    modifies store
    ensures preview.taskId in old(store.tasks) && key in old(store.deliveries) ==>
              r.Ok? && store.Contents() == D.CompleteSuccessful(old(store.Contents()), preview, key, merged, now)
    ensures key !in old(store.deliveries) ==> r.Err?
    ensures r.Err? ==> store.Contents() == old(store.Contents())
  {
    var capability := preview.action.ActionCapability();
    var result := DeliveryResult.Succeeded(merged);
    if !IsTerminalDelivery(capability, merged) && !EntersMonitoring(capability) {
      var completed := store.CompleteDelivery(key, result);
      return if completed.Ok? then Ok(()) else Err(D.Persistence);
    }
    var loaded := store.LoadTask(preview.taskId);
    if loaded.None? {
      return Err(D.DeliveryError.TaskMissing);
    }
    var events: seq<Task> := [];
    if !loaded.value.state.Completed? {
      LifecyclesAreChains(capability);
      var start, walked := LifecycleEvents(loaded.value, LifecycleOf(capability), now);
      LifecycleIsSuccessPath(capability, merged, loaded.value.state, start);
      if start.None? {
        var completed := store.CompleteDelivery(key, result);
        return if completed.Ok? then Ok(()) else Err(D.Persistence);
      }
      events := walked;
    }
    var completed := store.CompleteDeliveryWithTaskEvents(key, result, loaded.value.id, events);
    return if completed.Ok? then Ok(()) else Err(D.Persistence);
  }

  /** A definite failure sends a merging task back to its gate; any other task keeps its state. */
  method CompleteFailedDelivery(store: EventStore, preview: D.DeliveryPreview, key: Key, now: Instant)
    returns (r: Result<(), D.DeliveryError>)
    modifies store
    ensures preview.taskId in old(store.tasks) && key in old(store.deliveries) ==>
              r.Ok? && store.Contents() == D.CompleteFailed(old(store.Contents()), preview, key, now)
    ensures key !in old(store.deliveries) ==> r.Err?
    ensures r.Err? ==> store.Contents() == old(store.Contents())
  {
    if !IsMergeCapability(preview.action.ActionCapability()) {
      var completed := store.CompleteDelivery(key, DeliveryResult.Failed);
      return if completed.Ok? then Ok(()) else Err(D.Persistence);
    }
    var loaded := store.LoadTask(preview.taskId);
    if loaded.None? {
      return Err(D.DeliveryError.TaskMissing);
    }
    var task := new TaskRecord(loaded.value);
    if !task.state.Merging? {
      var completed := store.CompleteDelivery(key, DeliveryResult.Failed);
      return if completed.Ok? then Ok(()) else Err(D.Persistence);
    }
    var _ := task.Transition(AwaitingMergeApproval, now);
    var returned := store.CompleteFailedMergeDelivery(key, task.Value());
    return if returned.Ok? then Ok(()) else Err(D.Persistence);
  }

  method RecordAmbiguousDelivery(store: EventStore, key: Key) returns (r: Result<(), D.DeliveryError>)
    modifies store
    ensures r.Ok? <==> key in old(store.deliveries)
    ensures r.Ok? ==> store.Contents() == RecordDelivery(old(store.Contents()), key, Ambiguous)
    ensures r.Err? ==> store.Contents() == old(store.Contents())
  {
    var marked := store.MarkDeliveryAmbiguous(key);
    return if marked.Ok? then Ok(()) else Err(D.Persistence);
  }

  const COMPLETION_LIFECYCLE: seq<Edge> :=
    [Edge(AwaitingDeliveryApproval, Delivering), Edge(Delivering, TaskState.Monitoring),
     Edge(TaskState.Monitoring, AwaitingMergeApproval), Edge(AwaitingMergeApproval, Merging), Edge(Merging, Completed)]

  lemma LifecycleIsCompletionPath(state: TaskState, start: Option<nat>)
    requires StartsAt(COMPLETION_LIFECYCLE, state, start)
    ensures D.CompletionPath(state) == if start.Some? then Some(Rest(COMPLETION_LIFECYCLE, start)) else None
  {
    assert COMPLETION_LIFECYCLE[0].from.AwaitingDeliveryApproval? && COMPLETION_LIFECYCLE[1].from.Delivering?;
    assert COMPLETION_LIFECYCLE[2].from.Monitoring? && COMPLETION_LIFECYCLE[3].from.AwaitingMergeApproval?;
    assert COMPLETION_LIFECYCLE[4].from.Merging?;
    var states := [Delivering, TaskState.Monitoring, AwaitingMergeApproval, Merging, Completed];
    assert Targets(COMPLETION_LIFECYCLE) == states;
    if start.Some? {
      assert Rest(COMPLETION_LIFECYCLE, start) == states[start.value..];
    }
  }

  /** Every version between a task's state and completion. */
  method CompletionEvents(value: Task, now: Instant) returns (r: Result<seq<Task>, D.DeliveryError>)
    ensures r.Ok? <==> D.CompletionPath(value.state).Some?
    ensures r.Ok? ==> r.value == Versions(value, D.CompletionPath(value.state).value, now)
    ensures r.Err? ==> r.error == D.Persistence
  {
    LifecyclesAreChains(Capability.MergePullRequest);
    var start, events := LifecycleEvents(value, COMPLETION_LIFECYCLE, now);
    LifecycleIsCompletionPath(value.state, start);
    return if start.None? then Err(D.Persistence) else Ok(events);
  }

  /** The first item with a number. */
  method FindNumbered(items: seq<WorkItem>, number: nat) returns (found: Option<WorkItem>)
    ensures found == D.FirstNumbered(items, number)
  {
    for i := 0 to |items|
      invariant D.FirstNumbered(items, number) == D.FirstNumbered(items[i..], number)
    {
      if items[i].number == number {
        return Some(items[i]);
      }
    }
    return None;
  }

  /** The remote item a task was made from, if the snapshot still shows it at the captured head. */
  method RemoteItem(source: TaskSource, snapshot: Snapshot) returns (r: Result<WorkItem, D.DeliveryError>)
    ensures forall db: Db, id :: id in db.tasks && db.tasks[id].source == source ==> D.ReconciledItem(db, id, snapshot) == r
  {
    if source.LocalRequest? || snapshot.repositoryId != source.repositoryId
       || snapshot.repositoryFullName != source.repositoryFullName
    {
      return Err(D.SourceMismatch);
    }
    var found := FindNumbered(snapshot.workItems, source.number);
    if found.None? {
      return Err(D.RemoteItemMissing);
    }
    if found.value.kind.PullRequest? && source.HeadSha() != found.value.headSha {
      return Err(D.PreconditionMismatch);
    }
    return Ok(found.value);
  }

  /** The remote item shows no merge: the ambiguous merge failed and the task waits at its gate again. */
  method ReturnToGate(store: EventStore, key: Key, task: Task, now: Instant)
    requires key in store.deliveries && task.state.Merging?
    modifies store
    ensures store.Contents() == CompleteFailedMerge(old(store.Contents()), key, Moved(task, AwaitingMergeApproval, now))
  {
    var retry := new TaskRecord(task);
    var _ := retry.Transition(AwaitingMergeApproval, now);
    var _ := store.CompleteFailedMergeDelivery(key, retry.Value());
  }

  /** The remote item is complete: the task walks to its end, and an ambiguous merge succeeded. */
  method SettleCompleted(store: EventStore, task: Task, ambiguous: Option<Key>, now: Instant)
    returns (r: Result<(), D.DeliveryError>)
    requires ambiguous.Some? ==> ambiguous.value in store.deliveries
    modifies store
    ensures r.Ok? <==> D.CompletionPath(task.state).Some?
    ensures r.Ok? ==>
              var recorded := if ambiguous.Some? then RecordDelivery(old(store.Contents()), ambiguous.value, DeliveryResult.Succeeded(true))
                              else old(store.Contents());
              store.Contents() == SaveVersions(recorded, task.id, Versions(task, D.CompletionPath(task.state).value, now))
    ensures r.Err? ==> store.Contents() == old(store.Contents()) && r.error == D.Persistence
  {
    var events := CompletionEvents(task, now);
    if events.Err? {
      return Err(events.error);
    }
    if ambiguous.Some? {
      var _ := store.CompleteDeliveryWithTaskEvents(ambiguous.value, DeliveryResult.Succeeded(true), task.id, events.value);
    } else {
      store.SaveTaskEvents(task.id, events.value);
    }
    return Ok(());
  }

  /** Settles a task from a snapshot; `choice` is what its lookup of an ambiguous delivery returns. */
  method ReconcileCompletedTask(store: EventStore, taskId: TaskId, snapshot: Snapshot, now: Instant)
    returns (r: Result<(), D.DeliveryError>, ghost choice: Option<Key>)
    modifies store
    ensures IsAmbiguousChoice(old(store.deliveries), taskId, choice)
    ensures var spec := D.Reconcile(old(store.Contents()), taskId, snapshot, choice, now);
            && (r.Ok? <==> spec.Ok?)
            && (r.Ok? ==> store.Contents() == spec.value)
            && (r.Err? ==> store.Contents() == old(store.Contents()) && r.error == spec.error)
    ensures r.Ok? <==> taskId in old(store.tasks)
                       && ReconcileRules.Reconcilable(old(store.tasks)[taskId], snapshot, choice)
  {
    var lookup := store.AmbiguousDeliveryForTask(taskId);
    choice := lookup;
    ReconcileRules.ReconciledExactly(store.Contents(), taskId, snapshot, lookup, now);
    var loaded := store.LoadTask(taskId);
    if loaded.None? {
      return Err(D.DeliveryError.TaskMissing), choice;
    }
    var task := loaded.value;
    var item := RemoteItem(task.source, snapshot);
    assert D.ReconciledItem(old(store.Contents()), taskId, snapshot) == item;
    if item.Err? {
      return Err(item.error), choice;
    }
    var ambiguous := if task.state.Merging? then lookup else None;
    var completed := if item.value.kind.PullRequest? then item.value.merged == Some(true)
                     else item.value.state == "closed" && item.value.stateReason != Some("not_planned");
    if !completed {
      if ambiguous.None? || !item.value.kind.PullRequest? {
        return Err(D.RemoteNotCompleted), choice;
      }
      ReturnToGate(store, ambiguous.value, task, now);
      return Ok(()), choice;
    }
    if task.state.Completed? {
      return Ok(()), choice;
    }
    r := SettleCompleted(store, task, ambiguous, now);
  }
}
