/** The event store: tables updated in place, one method per transaction. Each method is tied to the
    function on tables that the protocol proofs reason about. */
module Store {
  import opened Base
  import opened Domain
  import opened Contract
  import opened Capabilities
  import opened GitHubActions
  import opened Policy
  import opened Tables
  import M = Monitoring
  import T = Tables

  datatype StoreError = DeliveryNotClaimed | PreparationNotActive | TaskMismatch | DuplicateRow | DanglingSource
  datatype WebhookIngestOutcome = WebhookIngestOutcome(inserted: bool, monitorsWoken: nat)

  /** The rows a webhook selects by their columns. */
  function Matching(monitors: map<MonitorId, MonitorRow>, webhook: Webhook): set<MonitorId> {
    set id | id in monitors && Wakes(monitors[id], webhook)
  }

  /** Those among them whose payload waits as well; in reachable tables that is all of them. */
  function Sleeping(monitors: map<MonitorId, MonitorRow>, ids: set<MonitorId>): set<MonitorId> {
    set id | id in ids && id in monitors && monitors[id].payload.state.Pending?
  }

  /** The approvals an invalidation still has to mark. */
  function LiveApprovalIds(approvals: map<ApprovalId, ApprovalRow>, taskId: TaskId): set<ApprovalId> {
    set id | id in approvals && approvals[id].approval.fingerprint.taskId == taskId && !approvals[id].invalidated
  }

  class EventStore {
    var tasks: map<TaskId, Task>
    var timeline: map<TaskId, seq<Task>>
    var taskSources: map<SourceKey, TaskId>
    var bindings: map<BindingId, RepositoryBinding>
    var contracts: map<TaskId, TaskContract>
    var approvals: map<ApprovalId, ApprovalRow>
    var claims: map<ApprovalId, ClaimRow>
    var deliveries: map<Key, DeliveryRow>
    var evidence: map<EvidenceKey, VerificationEvidence>
    var monitors: map<MonitorId, MonitorRow>
    var snapshots: map<string, SnapshotRow>
    var webhooks: set<string>

    function Contents(): Db
      reads this
    {
      Db(tasks, timeline, taskSources, bindings, contracts, approvals, claims, deliveries, evidence, monitors,
         snapshots, webhooks)
    }

    /** Opens durable tables; preparations that a stopped process left active are interrupted. */
    constructor Open(db: Db)
      ensures Contents() == RecoverInterruptedPreparations(db)
    {
      tasks, timeline, taskSources, bindings := db.tasks, db.timeline, db.taskSources, db.bindings;
      contracts, approvals, claims, deliveries := db.contracts, db.approvals, db.claims, db.deliveries;
      evidence, monitors, snapshots, webhooks := db.evidence, db.monitors, db.snapshots, db.webhooks;
      new;
      RecoverPreparations();
    }

    method RecoverPreparations()
      modifies this`claims
      ensures Contents() == RecoverInterruptedPreparations(old(Contents()))
    {
      var active := set id | id in claims && claims[id].result.Active?;
      ghost var before := claims;
      while active != {}
        invariant active <= before.Keys && claims.Keys == before.Keys
        invariant forall id :: id in active ==> before[id].result.Active?
        invariant forall id :: id in before ==>
                    claims[id] == (if before[id].result.Active? && id !in active then before[id].(result := Interrupted)
                                   else before[id])
      {
        var id :| id in active;
        claims := claims[id := claims[id].(result := Interrupted)];
        active := active - {id};
      }
      assert claims == RecoverInterruptedPreparations(old(Contents())).claims;
    }

    // ----- Tasks -----

    /** The upsert and the timeline insert that every task transaction ends with. */
    method PutTask(task: Task)
      modifies this`tasks, this`timeline
      ensures Contents() == T.SaveTask(old(Contents()), task)
    {
      tasks := tasks[task.id := task];
      timeline := timeline[task.id := History(timeline, task.id) + [task]];
    }

    method SaveTaskEvents(id: TaskId, versions: seq<Task>)
      requires forall i :: 0 <= i < |versions| ==> versions[i].id == id
      modifies this`tasks, this`timeline
      ensures Contents() == SaveVersions(old(Contents()), id, versions)
    {
      for i := 0 to |versions|
        invariant Contents() == SaveVersions(old(Contents()), id, versions[..i])
      {
        PutTask(versions[i]);
        SaveOneMore(old(Contents()), id, versions, i);
      }
      assert versions[..|versions|] == versions;
    }

    method LoadTask(id: TaskId) returns (task: Option<Task>)
      ensures task == if id in tasks then Some(tasks[id]) else None
    {
      task := if id in tasks then Some(tasks[id]) else None;
    }

    /** The first conversion of a source wins; later ones get its task back. */
    method CreateConverted(task: Task, sourceKey: SourceKey) returns (r: Result<(Task, bool), StoreError>)
      modifies this
      ensures r.Ok? ==> r.value.1 == (sourceKey !in old(taskSources))
      ensures r.Ok? && r.value.1 ==> r.value.0 == task
      ensures r.Ok? && !r.value.1 ==> old(taskSources)[sourceKey] in tasks && r.value.0 == tasks[old(taskSources)[sourceKey]]
      ensures r.Ok? ==> Contents() == CreateConvertedTask(old(Contents()), task, sourceKey)
      ensures r.Err? ==> Contents() == old(Contents())
      ensures r.Err? <==> if sourceKey in old(taskSources) then old(taskSources)[sourceKey] !in old(tasks)
                          else task.id in old(tasks)
    {
      if sourceKey in taskSources {
        if taskSources[sourceKey] !in tasks {
          return Err(DanglingSource);
        }
        return Ok((tasks[taskSources[sourceKey]], false));
      }
      if task.id in tasks {
        return Err(DuplicateRow);
      }
      PutTask(task);
      taskSources := taskSources[sourceKey := task.id];
      return Ok((task, true));
    }

    method SaveTaskContract(contract: TaskContract)
      modifies this`contracts
      ensures Contents() == old(Contents()).(contracts := old(contracts)[contract.taskId := contract])
    {
      contracts := contracts[contract.taskId := contract];
    }

    // ----- Approvals and preparation claims -----

    /** An upsert keeps the invalidation mark of a row that is already there. */
    method PutApproval(approval: Approval)
      modifies this`approvals
      ensures Contents() == SaveApproval(old(Contents()), approval)
    {
      if approval.id in approvals {
        approvals := approvals[approval.id := approvals[approval.id].(approval := approval)];
      } else {
        approvals := approvals[approval.id := ApprovalRow(approval, false)];
      }
    }

    method LoadApproval(id: ApprovalId) returns (approval: Option<Approval>)
      ensures approval == LiveApproval(Contents(), id)
    {
      approval := if id in approvals && !approvals[id].invalidated then Some(approvals[id].approval) else None;
    }

    method InvalidateApprovals(taskId: TaskId) returns (count: nat)
      modifies this`approvals
      ensures Contents() == InvalidateTaskApprovals(old(Contents()), taskId)
      ensures count == |LiveApprovalIds(old(approvals), taskId)|
    {
      var live := LiveApprovalIds(approvals, taskId);
      var rest := live;
      count := 0;
      while rest != {}
        invariant rest <= live && count + |rest| == |live|
        invariant approvals.Keys == old(approvals).Keys
        invariant forall id :: id in approvals ==>
                    approvals[id] == (if id in live - rest then old(approvals)[id].(invalidated := true) else old(approvals)[id])
      {
        var id :| id in rest;
        approvals := approvals[id := approvals[id].(invalidated := true)];
        rest := rest - {id};
        count := count + 1;
      }
      assert approvals == InvalidatedFor(old(approvals), taskId);
    }

    /** Insert or ignore first, then find out why nothing was inserted. */
    method ClaimPreparation(id: ApprovalId, taskId: TaskId, fingerprint: ActionFingerprint, now: Instant)
      returns (outcome: PreparationClaimOutcome)
      modifies this`claims
      ensures outcome == ClaimPreparationOutcome(old(Contents()), id, taskId, fingerprint, now)
      ensures Contents() == T.ClaimPreparation(old(Contents()), id, taskId, fingerprint, now)
    {
      var available := PreparationAvailable(Contents(), id, taskId, fingerprint, now);
      if available && id !in claims && !HasActiveClaim(claims, taskId) {
        claims := claims[id := ClaimRow(taskId, fingerprint, Active)];
        return Claimed;
      }
      if id in claims {
        return AlreadyClaimed;
      }
      if !available {
        return ApprovalUnavailable;
      }
      return TaskInProgress;
    }

    method CompletePreparation(id: ApprovalId, result: ClaimResult) returns (r: Result<(), StoreError>)
      requires !result.Active?
      modifies this`claims
      ensures r.Ok? <==> IsActiveClaim(old(Contents()), id)
      ensures r.Ok? ==> Contents() == CompletePreparationClaim(old(Contents()), id, result)
      ensures r.Err? ==> Contents() == old(Contents())
    {
      if id !in claims || !claims[id].result.Active? {
        return Err(PreparationNotActive);
      }
      claims := claims[id := claims[id].(result := result)];
      return Ok(());
    }

    // ----- Deliveries -----

    /** Resets a definitely failed row or inserts a missing one; any other row refuses the claim and its task event. */
    method ClaimDeliveryWithTaskEvent(key: Key, taskEvent: Option<Task>, now: Instant) returns (claimed: bool)
      modifies this`tasks, this`timeline, this`deliveries
      ensures claimed <==> Claimable(old(deliveries), key)
      ensures Contents() == T.ClaimDelivery(old(Contents()), key, taskEvent, now)
    {
      var taskId := if taskEvent.Some? then Some(taskEvent.value.id) else None;
      if key in deliveries && deliveries[key].result.Failed? {
        var tag := if taskId.Some? then taskId else deliveries[key].taskId;
        deliveries := deliveries[key := DeliveryRow(DeliveryResult.Pending, tag, now, false)];
        claimed := true;
      } else if key !in deliveries {
        deliveries := deliveries[key := DeliveryRow(DeliveryResult.Pending, taskId, now, false)];
        claimed := true;
      } else {
        claimed := false;
      }
      if claimed && taskEvent.Some? {
        PutTask(taskEvent.value);
      }
    }

    /** Writes a result without asking what the row holds; only a missing row is an error. */
    method PutResult(key: Key, result: DeliveryResult) returns (r: Result<(), StoreError>)
      modifies this`deliveries
      ensures r.Ok? <==> key in old(deliveries)
      ensures r.Ok? ==> Contents() == RecordDelivery(old(Contents()), key, result)
      ensures r.Err? ==> Contents() == old(Contents()) && r.error == DeliveryNotClaimed
    {
      if key !in deliveries {
        return Err(DeliveryNotClaimed);
      }
      deliveries := deliveries[key := deliveries[key].(result := result, completed := !result.IsUnresolved())];
      return Ok(());
    }

    method CompleteDelivery(key: Key, result: DeliveryResult) returns (r: Result<(), StoreError>)
      requires !result.IsUnresolved()
      modifies this`deliveries
      ensures r.Ok? <==> key in old(deliveries)
      ensures r.Ok? ==> Contents() == RecordDelivery(old(Contents()), key, result) && deliveries[key].completed
      ensures r.Err? ==> Contents() == old(Contents())
    {
      r := PutResult(key, result);
    }

    method MarkDeliveryAmbiguous(key: Key) returns (r: Result<(), StoreError>)
      modifies this`deliveries
      ensures r.Ok? <==> key in old(deliveries)
      ensures r.Ok? ==> Contents() == RecordDelivery(old(Contents()), key, Ambiguous) && !deliveries[key].completed
      ensures r.Err? ==> Contents() == old(Contents())
    {
      r := PutResult(key, Ambiguous);
    }

    /** The newest ambiguous row of a task. */
    method AmbiguousDeliveryForTask(taskId: TaskId) returns (choice: Option<Key>)
      ensures IsAmbiguousChoice(deliveries, taskId, choice)
    {
      choice := None;
      var rest := deliveries.Keys;
      while rest != {}
        invariant rest <= deliveries.Keys
        invariant choice.Some? ==> IsAmbiguousFor(deliveries, taskId, choice.value)
        invariant choice.None? ==> forall k :: k in deliveries && k !in rest ==> !IsAmbiguousFor(deliveries, taskId, k)
        invariant choice.Some? ==> forall k :: k in deliveries && k !in rest && IsAmbiguousFor(deliveries, taskId, k) ==>
                                     deliveries[k].claimedAt <= deliveries[choice.value].claimedAt
      {
        var key :| key in rest;
        rest := rest - {key};
        if IsAmbiguousFor(deliveries, taskId, key)
           && (choice.None? || deliveries[choice.value].claimedAt <= deliveries[key].claimedAt)
        {
          choice := Some(key);
        }
      }
    }

    method CompleteDeliveryWithTaskEvents(key: Key, result: DeliveryResult, id: TaskId, versions: seq<Task>)
      returns (r: Result<(), StoreError>)
      requires !result.IsUnresolved()
      requires forall i :: 0 <= i < |versions| ==> versions[i].id == id
      modifies this`tasks, this`timeline, this`deliveries
      ensures r.Ok? <==> key in old(deliveries)
      ensures r.Ok? ==> Contents() == SaveVersions(RecordDelivery(old(Contents()), key, result), id, versions)
      ensures r.Err? ==> Contents() == old(Contents())
    {
      r := PutResult(key, result);
      if r.Ok? {
        SaveTaskEvents(id, versions);
      }
    }

    /** The failed row, the task's dead approvals and the task's return to its gate become visible together. */
    method CompleteFailedMergeDelivery(key: Key, task: Task) returns (r: Result<(), StoreError>)
      modifies this`tasks, this`timeline, this`deliveries, this`approvals
      ensures r.Ok? <==> key in old(deliveries)
      ensures r.Ok? ==> Contents() == CompleteFailedMerge(old(Contents()), key, task)
      ensures r.Err? ==> Contents() == old(Contents())
    {
      r := PutResult(key, DeliveryResult.Failed);
      if r.Ok? {
        var _ := InvalidateApprovals(task.id);
        PutTask(task);
      }
    }

    // ----- Evidence -----

    method SaveVerificationEvidence(key: EvidenceKey, row: VerificationEvidence) returns (r: Result<(), StoreError>)
      modifies this`evidence
      ensures r.Ok? <==> key !in old(evidence)
      ensures r.Ok? ==> Contents() == old(Contents()).(evidence := old(evidence)[key := row])
      ensures r.Err? ==> Contents() == old(Contents())
    {
      if key in evidence {
        return Err(DuplicateRow);
      }
      evidence := evidence[key := row];
      return Ok(());
    }

    // ----- Monitors -----

    method PutMonitor(monitor: M.Monitor)
      modifies this`monitors
      ensures Contents() == SaveMonitor(old(Contents()), monitor)
    {
      if monitor.id in monitors {
        var row := monitors[monitor.id];
        monitors := monitors[monitor.id := row.(state := monitor.state, nextAttemptAt := monitor.nextAttemptAt, payload := monitor)];
      } else {
        monitors := monitors[monitor.id := MonitorRow(monitor.taskId, monitor.repositoryFullName, monitor.pullRequestNumber,
                                                      monitor.state, monitor.nextAttemptAt, monitor)];
      }
    }

    method PutMonitorWithTaskEvent(monitor: M.Monitor, task: Task) returns (r: Result<(), StoreError>)
      modifies this`monitors, this`tasks, this`timeline
      ensures r.Ok? <==> monitor.taskId == task.id
      ensures r.Ok? ==> Contents() == SaveMonitorWithTaskEvent(old(Contents()), monitor, task)
      ensures r.Err? ==> Contents() == old(Contents())
    {
      if monitor.taskId != task.id {
        return Err(TaskMismatch);
      }
      PutMonitor(monitor);
      PutTask(task);
      return Ok(());
    }

    // ----- Webhooks -----

    /** Wakes the stored monitor and, if that changed it, updates its row. */
    method WakeRow(id: MonitorId, now: Instant) returns (changed: bool)
      requires id in monitors && monitors[id].state.Pending?
      modifies this`monitors
      ensures changed <==> old(monitors)[id].payload.state.Pending?
      ensures monitors == old(monitors)[id := WokenRow(old(monitors)[id], now)]
    {
      var monitor := new M.MonitorRecord.Load(monitors[id].payload);
      changed := monitor.Wake(now);
      if changed {
        var value := monitor.Value();
        if monitors[id].state.Pending? {
          monitors := monitors[id := monitors[id].(state := value.state, nextAttemptAt := value.nextAttemptAt, payload := value)];
        }
      }
    }

    method WakeRows(ids: set<MonitorId>, now: Instant) returns (woken: nat)
      requires ids <= monitors.Keys && forall id :: id in ids ==> monitors[id].state.Pending?
      modifies this`monitors
      ensures monitors.Keys == old(monitors).Keys
      ensures forall id :: id in monitors ==>
                monitors[id] == if id in ids then WokenRow(old(monitors)[id], now) else old(monitors)[id]
      ensures woken == |Sleeping(old(monitors), ids)|
    {
      var rest := ids;
      woken := 0;
      while rest != {}
        invariant rest <= ids && monitors.Keys == old(monitors).Keys
        invariant woken + |Sleeping(old(monitors), rest)| == |Sleeping(old(monitors), ids)|
        invariant forall id :: id in monitors ==>
                    monitors[id] == if id in ids - rest then WokenRow(old(monitors)[id], now) else old(monitors)[id]
      {
        var id :| id in rest;
        ghost var before := Sleeping(old(monitors), rest);
        rest := rest - {id};
        assert Sleeping(old(monitors), rest) == before - {id};
        var changed := WakeRow(id, now);
        if changed {
          woken := woken + 1;
        }
      }
      assert Sleeping(old(monitors), rest) == {};
    }

    /** Records a delivery once and wakes the monitors it concerns one by one, in one transaction. */
    method IngestGithubWebhook(webhook: Webhook, now: Instant) returns (outcome: WebhookIngestOutcome)
      modifies this`webhooks, this`monitors
      ensures Contents() == IngestWebhook(old(Contents()), webhook, now)
      ensures outcome.inserted <==> webhook.deliveryId !in old(webhooks)
      ensures outcome.monitorsWoken ==
                if outcome.inserted then |Sleeping(old(monitors), Matching(old(monitors), webhook))| else 0
    {
      if webhook.deliveryId in webhooks {
        return WebhookIngestOutcome(false, 0);
      }
      webhooks := webhooks + {webhook.deliveryId};
      var selected := if webhook.repositoryFullName.None? then {} else Matching(monitors, webhook);
      assert selected == Matching(monitors, webhook);
      var woken := WakeRows(selected, now);
      assert monitors == WokenMonitors(old(monitors), webhook, now);
      return WebhookIngestOutcome(true, woken);
    }
  }
}
