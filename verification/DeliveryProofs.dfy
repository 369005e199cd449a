/** Claiming, completing and reconciling a delivery keep the invariant. */
module DeliveryProofs {
  import opened Base
  import opened Sources
  import opened Domain
  import opened Contract
  import opened Capabilities
  import opened GitHubActions
  import opened Policy
  import opened Tables
  import opened Protocol
  import opened TimelineProofs
  import opened Invariant
  import opened TableProofs
  import opened StepProofs
  import D = DeliverySpec
  import DeliveryRules

  // ----- Claims -----

  /** What a merge claim stands on: the gate, the captured head SHA, and an approval never spent before. */
  ghost predicate MergeReady(s: Sys, id: TaskId, key: Key, approvalId: ApprovalId) {
    && id in s.db.tasks && s.db.tasks[id].id == id && s.db.tasks[id].state.AwaitingMergeApproval?
    && NamesPullRequest(key, s.db.tasks[id].source)
    && approvalId in s.db.approvals && !s.db.approvals[approvalId].invalidated
    && s.db.approvals[approvalId].approval.fingerprint.taskId == id
  }

  lemma MergeClaimIsReady(s: Sys, preview: D.DeliveryPreview, approvalId: ApprovalId, automationDisabled: bool,
                          now: Instant, worktreeHead: Option<Sha>)
    requires Holds(Timelines, s) && Holds(Contracts, s)
    requires DeliveryRules.IsJustified(s.db, preview, approvalId, automationDisabled, now, worktreeHead)
    requires IsMergeKey(preview.action.IdempotencySha256())
    ensures MergeReady(s, preview.taskId, preview.action.IdempotencySha256(), approvalId)
  {
    var id := preview.taskId;
    RowIdentity(s.db.tasks, s.db.timeline, id);
    assert Fits(s.db.tasks[id], s.db.contracts[id]);
  }

  lemma ClaimIsJustified(s: Sys, preview: D.DeliveryPreview, approvalId: ApprovalId, automationDisabled: bool,
                         now: Instant, worktreeHead: Option<Sha>)
    requires DeliveryRules.IsJustified(s.db, preview, approvalId, automationDisabled, now, worktreeHead)
    ensures var event := DeliveryClaimed(preview.action.IdempotencySha256(), preview.taskId, approvalId);
            JustifiedClaim(s.db.tasks, s.db.contracts, s.db.bindings, s.db.approvals, event)
  {
    DeliveryRules.DemandIsTheActions(preview.action.action);
  }

  /** The approval behind a new merge claim is not the approval of any earlier one. */
  lemma MergeOnceClaim(tasks: map<TaskId, Task>, approvals: map<ApprovalId, ApprovalRow>, gate: map<TaskId, MonitorId>,
                       log: seq<Event>, id: TaskId, task: Task, event: Event)
    requires MergeOnceInv(tasks, approvals, gate, log) && Lawful(tasks, id, task)
    requires event.DeliveryClaimed? && event.taskId == id
    requires id in tasks && tasks[id].state.AwaitingMergeApproval? && task.state.Merging?
    requires event.approvalId in approvals && !approvals[event.approvalId].invalidated
    requires approvals[event.approvalId].approval.fingerprint.taskId == id
    requires id in gate && NamesPullRequest(event.key, tasks[id].source)
    ensures MergeOnceInv(tasks[id := task], approvals, gate, log + [event])
  {
  }

  /** What an authorized claim can rely on. */
  lemma AuthorizedClaimIsReady(s: Sys, preview: D.DeliveryPreview, approvalId: ApprovalId, automationDisabled: bool,
                               now: Instant, worktreeHead: Option<Sha>)
    requires Holds(Timelines, s) && Holds(Contracts, s)
    requires D.AuthorizeExecution(s.db, preview, approvalId, automationDisabled, now, worktreeHead).Ok?
    ensures var key := preview.action.IdempotencySha256();
            && preview.taskId in s.db.tasks && Claimable(s.db.deliveries, key)
            && D.AuthorizeExecution(s.db, preview, approvalId, automationDisabled, now, worktreeHead).value ==
                 Tables.ClaimDelivery(s.db, key, D.ClaimEvent(s.db, preview, now), now)
            && (IsMergeKey(key) ==> MergeReady(s, preview.taskId, key, approvalId))
            && JustifiedClaim(s.db.tasks, s.db.contracts, s.db.bindings, s.db.approvals,
                              DeliveryClaimed(key, preview.taskId, approvalId))
  {
    DeliveryRules.AuthorizedExactly(s.db, preview, approvalId, automationDisabled, now, worktreeHead);
    ClaimIsJustified(s, preview, approvalId, automationDisabled, now, worktreeHead);
    if IsMergeKey(preview.action.IdempotencySha256()) {
      MergeClaimIsReady(s, preview, approvalId, automationDisabled, now, worktreeHead);
    }
  }

  lemma ClaimDeliveryKeepsInv(s: Sys, handler: HandlerId, preview: D.DeliveryPreview, approvalId: ApprovalId,
                              automationDisabled: bool, now: Instant, worktreeHead: Option<Sha>)
    requires Inv(s)
    ensures Inv(DoClaimDelivery(s, handler, preview, approvalId, automationDisabled, now, worktreeHead))
  {
    if handler !in s.execs && D.AuthorizeExecution(s.db, preview, approvalId, automationDisabled, now, worktreeHead).Ok? {
      assert Holds(Timelines, s) && Holds(Contracts, s);
      AuthorizedClaimIsReady(s, preview, approvalId, automationDisabled, now, worktreeHead);
      ClaimedKeepsInv(s, handler, preview, approvalId, now);
    }
  }

  lemma ClaimedKeepsInv(s: Sys, handler: HandlerId, preview: D.DeliveryPreview, approvalId: ApprovalId, now: Instant)
    requires Inv(s) && handler !in s.execs && preview.taskId in s.db.tasks
    requires var key := preview.action.IdempotencySha256();
             && Claimable(s.db.deliveries, key)
             && (IsMergeKey(key) ==> MergeReady(s, preview.taskId, key, approvalId))
             && JustifiedClaim(s.db.tasks, s.db.contracts, s.db.bindings, s.db.approvals,
                               DeliveryClaimed(key, preview.taskId, approvalId))
    ensures var key := preview.action.IdempotencySha256();
            Inv(s.(db := Tables.ClaimDelivery(s.db, key, D.ClaimEvent(s.db, preview, now), now),
                   execs := s.execs[handler := Exec(key, preview)],
                   log := s.log + [DeliveryClaimed(key, preview.taskId, approvalId)],
                   mergeClaim := if IsMergeKey(key) then s.mergeClaim[preview.taskId := key] else s.mergeClaim))
  {
    if IsMergeKey(preview.action.IdempotencySha256()) {
      MergeClaimedKeepsInv(s, handler, preview, approvalId, now);
    } else {
      PlainClaimedKeepsInv(s, handler, preview, approvalId, now);
    }
  }

  lemma PlainClaimedKeepsInv(s: Sys, handler: HandlerId, preview: D.DeliveryPreview, approvalId: ApprovalId, now: Instant)
    requires Inv(s) && handler !in s.execs && preview.taskId in s.db.tasks
    requires var key := preview.action.IdempotencySha256();
             && Claimable(s.db.deliveries, key) && !IsMergeKey(key)
             && JustifiedClaim(s.db.tasks, s.db.contracts, s.db.bindings, s.db.approvals,
                               DeliveryClaimed(key, preview.taskId, approvalId))
    ensures var key := preview.action.IdempotencySha256();
            Inv(s.(db := Tables.ClaimDelivery(s.db, key, None, now), execs := s.execs[handler := Exec(key, preview)],
                   log := s.log + [DeliveryClaimed(key, preview.taskId, approvalId)]))
  {
    var key := preview.action.IdempotencySha256();
    var event, exec := DeliveryClaimed(key, preview.taskId, approvalId), Exec(key, preview);
    var row := ClaimedRow(s.db.deliveries, key, None, now);
    var after := s.(db := s.db.(deliveries := s.db.deliveries[key := row]), execs := s.execs[handler := exec],
                    log := s.log + [event]);
    forall part ensures Holds(part, after) {
      assert Holds(part, s);
      match part
      case Deliveries => DeliveryClaim(s.db.tasks, s.db.deliveries, s.mergeClaim, key, row);
      case Executors => ExecClaim(s.db.tasks, s.db.deliveries, s.execs, key, row, handler, exec);
      case DeliveryLog => LogClaim(s.log, s.db.deliveries, key, row, event);
      case MergeClaims => MergeOnceQuiet(s.db.tasks, s.db.approvals, s.mergeGate, s.log, event);
      case Justifications => JustifiedQuiet(s.db.tasks, s.db.contracts, s.db.bindings, s.db.approvals, s.log, event);
      case PreparationLog => PrepLogQuiet(s.db.claims, s.log, event);
      case VerificationLog => VerifyLogQuiet(s.passed, s.log, event);
      case _ =>
    }
  }

  lemma MergeClaimedKeepsInv(s: Sys, handler: HandlerId, preview: D.DeliveryPreview, approvalId: ApprovalId, now: Instant)
    requires Inv(s) && handler !in s.execs
    requires var key := preview.action.IdempotencySha256();
             && Claimable(s.db.deliveries, key) && IsMergeKey(key) && MergeReady(s, preview.taskId, key, approvalId)
             && JustifiedClaim(s.db.tasks, s.db.contracts, s.db.bindings, s.db.approvals,
                               DeliveryClaimed(key, preview.taskId, approvalId))
    ensures var key := preview.action.IdempotencySha256();
            Inv(s.(db := Tables.ClaimDelivery(s.db, key, Some(Moved(s.db.tasks[preview.taskId], Merging, now)), now),
                   execs := s.execs[handler := Exec(key, preview)],
                   log := s.log + [DeliveryClaimed(key, preview.taskId, approvalId)],
                   mergeClaim := s.mergeClaim[preview.taskId := key]))
  {
    var key, id := preview.action.IdempotencySha256(), preview.taskId;
    var event, exec := DeliveryClaimed(key, id, approvalId), Exec(key, preview);
    var task, row := Moved(s.db.tasks[id], Merging, now), ClaimedRow(s.db.deliveries, key, Some(id), now);
    var db := Tables.ClaimDelivery(s.db, key, Some(task), now);
    assert Holds(Timelines, s);
    SaveKeepsTimeline(s.db, id, [task]);
    MergeClaimWrites(s, id, task, key, row, exec, handler, event, db.timeline);
  }

  lemma MergeClaimWrites(s: Sys, id: TaskId, task: Task, key: Key, row: DeliveryRow, exec: Exec, handler: HandlerId,
                         event: Event, timeline: map<TaskId, seq<Task>>)
    requires Inv(s) && handler !in s.execs && Lawful(s.db.tasks, id, task) && id in s.db.tasks && task.state.Merging?
    requires event.DeliveryClaimed? && event.key == key && event.taskId == id
    requires exec.key == key == exec.preview.action.IdempotencySha256() && exec.preview.taskId == id
    requires Claimable(s.db.deliveries, key) && IsMergeKey(key) && MergeReady(s, id, key, event.approvalId)
    requires row.result.Pending? && !row.completed && row.taskId == Some(id)
    requires JustifiedClaim(s.db.tasks, s.db.contracts, s.db.bindings, s.db.approvals, event)
    requires TimelineInv(s.db.tasks[id := task], timeline)
    ensures Inv(s.(db := s.db.(tasks := s.db.tasks[id := task], timeline := timeline,
                               deliveries := s.db.deliveries[key := row]),
                   execs := s.execs[handler := exec], log := s.log + [event], mergeClaim := s.mergeClaim[id := key]))
  {
    var after := s.(db := s.db.(tasks := s.db.tasks[id := task], timeline := timeline,
                                deliveries := s.db.deliveries[key := row]),
                    execs := s.execs[handler := exec], log := s.log + [event], mergeClaim := s.mergeClaim[id := key]);
    forall part ensures Holds(part, after) {
      assert Holds(part, s) && Holds(Gates, s);
      if IsDeliveryPart(part) {
        MergeClaimDeliveries(s, part, id, task, key, row, exec, handler, event, timeline);
      } else {
        MergeClaimOthers(s, part, id, task, key, row, exec, handler, event, timeline);
      }
    }
  }

  predicate IsDeliveryPart(part: Part) {
    part.Deliveries? || part.Executors? || part.DeliveryLog? || part.MergeClaims? || part.Justifications?
  }

  lemma MergeClaimDeliveries(s: Sys, part: Part, id: TaskId, task: Task, key: Key, row: DeliveryRow, exec: Exec,
                             handler: HandlerId, event: Event, timeline: map<TaskId, seq<Task>>)
    requires Holds(part, s) && Holds(Gates, s) && IsDeliveryPart(part)
    requires handler !in s.execs && Lawful(s.db.tasks, id, task) && id in s.db.tasks && task.state.Merging?
    requires event.DeliveryClaimed? && event.key == key && event.taskId == id
    requires exec.key == key == exec.preview.action.IdempotencySha256() && exec.preview.taskId == id
    requires Claimable(s.db.deliveries, key) && IsMergeKey(key) && MergeReady(s, id, key, event.approvalId)
    requires row.result.Pending? && !row.completed && row.taskId == Some(id)
    requires JustifiedClaim(s.db.tasks, s.db.contracts, s.db.bindings, s.db.approvals, event)
    ensures Holds(part, s.(db := s.db.(tasks := s.db.tasks[id := task], timeline := timeline,
                                       deliveries := s.db.deliveries[key := row]),
                           execs := s.execs[handler := exec], log := s.log + [event], mergeClaim := s.mergeClaim[id := key]))
  {
    var tasks := s.db.tasks[id := task];
    match part
    case Deliveries => DeliveryMergeClaim(s.db.tasks, s.db.deliveries, s.mergeClaim, key, row, id, task);
    case Executors =>
      ExecWrite(s.db.tasks, s.db.deliveries, s.execs, id, task);
      ExecClaim(tasks, s.db.deliveries, s.execs, key, row, handler, exec);
    case DeliveryLog => LogClaim(s.log, s.db.deliveries, key, row, event);
    case MergeClaims => MergeOnceClaim(s.db.tasks, s.db.approvals, s.mergeGate, s.log, id, task, event);
    case Justifications =>
      JustifiedWrite(s.db.tasks, s.db.contracts, s.db.bindings, s.db.approvals, s.log, id, task);
      JustifiedQuiet(tasks, s.db.contracts, s.db.bindings, s.db.approvals, s.log, event);
    case _ =>
  }

  lemma MergeClaimOthers(s: Sys, part: Part, id: TaskId, task: Task, key: Key, row: DeliveryRow, exec: Exec,
                         handler: HandlerId, event: Event, timeline: map<TaskId, seq<Task>>)
    requires Holds(part, s) && Holds(Gates, s) && !IsDeliveryPart(part)
    requires Lawful(s.db.tasks, id, task) && id in s.db.tasks
    requires s.db.tasks[id].state.AwaitingMergeApproval? && task.state.Merging? && event.DeliveryClaimed?
    requires TimelineInv(s.db.tasks[id := task], timeline)
    ensures Holds(part, s.(db := s.db.(tasks := s.db.tasks[id := task], timeline := timeline,
                                       deliveries := s.db.deliveries[key := row]),
                           execs := s.execs[handler := exec], log := s.log + [event], mergeClaim := s.mergeClaim[id := key]))
  {
    match part
    case Contracts => PlannedWrite(s.db.tasks, s.db.contracts, id, task);
    case Monitors => MonitorWrite(s.db.tasks, s.db.monitors, id, task);
    case Gates => GateWrite(s.db.tasks, s.db.monitors, s.mergeGate, id, task);
    case Preparations =>
      ReadPreparationWaits(s.db.tasks, s.db.claims, s.preps, id);
      PrepWrite(s.db.tasks, s.db.claims, s.preps, id, task);
    case PreparationLog => PrepLogQuiet(s.db.claims, s.log, event);
    case Runs => RunsWrite(s.db.tasks, s.db.contracts, s.runs, s.live, id, task);
    case Verified => VerifiedWrite(s.db.tasks, s.runs, s.live, s.passed, id, task);
    case VerificationLog => VerifyLogQuiet(s.passed, s.log, event);
    case _ =>
  }

  // ----- Results -----

  /** The row a result leaves. */
  function Recorded(row: DeliveryRow, result: DeliveryResult): DeliveryRow {
    row.(result := result, completed := !result.IsUnresolved())
  }

  lemma RecordKeepsInv(s: Sys, key: Key, result: DeliveryResult, execs: map<HandlerId, Exec>)
    requires Inv(s) && key in s.db.deliveries && s.db.deliveries[key].result.IsUnresolved()
    requires !result.Pending? && (result.Ambiguous? ==> s.db.deliveries[key].result.Pending?)
    requires result.Failed? ==>
               forall id :: id in s.db.tasks && s.db.tasks[id].state.Merging? ==> s.db.deliveries[key].taskId != Some(id)
    requires ExecInv(s.db.tasks, s.db.deliveries[key := Recorded(s.db.deliveries[key], result)], execs)
    ensures Inv(s.(db := RecordDelivery(s.db, key, result), execs := execs, log := s.log + [DeliveryRecorded(key, result)]))
  {
    var event, row := DeliveryRecorded(key, result), Recorded(s.db.deliveries[key], result);
    var after := s.(db := s.db.(deliveries := s.db.deliveries[key := row]), execs := execs, log := s.log + [event]);
    forall part ensures Holds(part, after) {
      assert Holds(part, s);
      match part
      case Deliveries => DeliveryRecord(s.db.tasks, s.db.deliveries, s.mergeClaim, key, row);
      case DeliveryLog => LogRecord(s.log, s.db.deliveries, key, row);
      case MergeClaims => MergeOnceQuiet(s.db.tasks, s.db.approvals, s.mergeGate, s.log, event);
      case Justifications => JustifiedQuiet(s.db.tasks, s.db.contracts, s.db.bindings, s.db.approvals, s.log, event);
      case PreparationLog => PrepLogQuiet(s.db.claims, s.log, event);
      case VerificationLog => VerifyLogQuiet(s.passed, s.log, event);
      case _ =>
    }
  }

  /** A definite merge failure: the row fails, the task's approvals die and the task returns to its gate. */
  lemma FailedMergeKeepsInv(s: Sys, key: Key, id: TaskId, now: Instant, execs: map<HandlerId, Exec>)
    requires Inv(s) && key in s.db.deliveries && s.db.deliveries[key].result.IsUnresolved()
    requires id in s.db.tasks && s.db.tasks[id].state.Merging? && s.db.deliveries[key].taskId == Some(id)
    requires ExecInv(s.db.tasks, s.db.deliveries[key := Recorded(s.db.deliveries[key], DeliveryResult.Failed)], execs)
    ensures Inv(s.(db := CompleteFailedMerge(s.db, key, Moved(s.db.tasks[id], AwaitingMergeApproval, now)), execs := execs,
                   log := s.log + [DeliveryRecorded(key, DeliveryResult.Failed)]))
  {
    var task := Moved(s.db.tasks[id], AwaitingMergeApproval, now);
    assert Holds(Timelines, s);
    RowIdentity(s.db.tasks, s.db.timeline, id);
    SaveKeepsTimeline(s.db, id, [task]);
    FailedMergeWrites(s, key, id, task, CompleteFailedMerge(s.db, key, task).timeline, execs);
  }

  lemma FailedMergeWrites(s: Sys, key: Key, id: TaskId, task: Task, timeline: map<TaskId, seq<Task>>,
                          execs: map<HandlerId, Exec>)
    requires Inv(s) && key in s.db.deliveries && s.db.deliveries[key].result.IsUnresolved()
    requires id in s.db.tasks && s.db.tasks[id].state.Merging? && s.db.deliveries[key].taskId == Some(id)
    requires Lawful(s.db.tasks, id, task) && task.state.AwaitingMergeApproval?
    requires ExecInv(s.db.tasks, s.db.deliveries[key := Recorded(s.db.deliveries[key], DeliveryResult.Failed)], execs)
    requires TimelineInv(s.db.tasks[id := task], timeline)
    ensures var row := Recorded(s.db.deliveries[key], DeliveryResult.Failed);
            Inv(s.(db := s.db.(tasks := s.db.tasks[id := task], timeline := timeline,
                               deliveries := s.db.deliveries[key := row],
                               approvals := InvalidatedFor(s.db.approvals, id)),
                   execs := execs, log := s.log + [DeliveryRecorded(key, DeliveryResult.Failed)]))
  {
    var event, row := DeliveryRecorded(key, DeliveryResult.Failed), Recorded(s.db.deliveries[key], DeliveryResult.Failed);
    var tasks, approvals := s.db.tasks[id := task], InvalidatedFor(s.db.approvals, id);
    var after := s.(db := s.db.(tasks := tasks, timeline := timeline, deliveries := s.db.deliveries[key := row],
                                approvals := approvals),
                    execs := execs, log := s.log + [event]);
    forall part ensures Holds(part, after) {
      assert Holds(part, s);
      match part
      case Contracts => PlannedWrite(s.db.tasks, s.db.contracts, id, task);
      case Monitors => MonitorWrite(s.db.tasks, s.db.monitors, id, task);
      case Gates => GateWrite(s.db.tasks, s.db.monitors, s.mergeGate, id, task);
      case Deliveries => DeliveryReturn(s.db.tasks, s.db.deliveries, s.mergeClaim, key, row, id, task);
      case Executors => ExecWrite(s.db.tasks, s.db.deliveries[key := row], execs, id, task);
      case DeliveryLog => LogRecord(s.log, s.db.deliveries, key, row);
      case MergeClaims =>
        MergeOnceReturn(s.db.tasks, s.db.approvals, s.mergeGate, s.log, id, task);
        MergeOnceQuiet(tasks, approvals, s.mergeGate, s.log, event);
      case Justifications =>
        JustifiedWrite(s.db.tasks, s.db.contracts, s.db.bindings, s.db.approvals, s.log, id, task);
        JustifiedGrows(tasks, s.db.contracts, s.db.bindings, s.db.bindings, s.db.approvals, approvals, s.log);
        JustifiedQuiet(tasks, s.db.contracts, s.db.bindings, approvals, s.log, event);
      case Preparations =>
        ReadPreparationWaits(s.db.tasks, s.db.claims, s.preps, id);
        PrepWrite(s.db.tasks, s.db.claims, s.preps, id, task);
      case PreparationLog => PrepLogQuiet(s.db.claims, s.log, event);
      case Runs => RunsWrite(s.db.tasks, s.db.contracts, s.runs, s.live, id, task);
      case Verified => VerifiedWrite(s.db.tasks, s.runs, s.live, s.passed, id, task);
      case VerificationLog => VerifyLogQuiet(s.passed, s.log, event);
      case _ =>
    }
  }

  // ----- Handlers that finish -----

  /** An executor in flight can always complete, and the row it completes is its own. */
  lemma ExecOwnsRow(s: Sys, handler: HandlerId, result: DeliveryResult)
    requires Holds(Executors, s) && Holds(Deliveries, s) && Holds(Timelines, s) && handler in s.execs
    ensures CanComplete(s, handler)
    ensures var exec := s.execs[handler];
            && s.db.deliveries[exec.key].result.Pending?
            && s.db.tasks[exec.preview.taskId].id == exec.preview.taskId
            && exec.key == exec.preview.action.IdempotencySha256()
            && s.db.deliveries[exec.key].taskId == (if IsMergeKey(exec.key) then Some(exec.preview.taskId) else None)
            && ExecInv(s.db.tasks, s.db.deliveries[exec.key := Recorded(s.db.deliveries[exec.key], result)], s.execs - {handler})
  {
    var exec := s.execs[handler];
    assert ExecRowInv(s.db.tasks, s.db.deliveries, exec);
    RowIdentity(s.db.tasks, s.db.timeline, exec.preview.taskId);
    ExecFinish(s.db.tasks, s.db.deliveries, s.execs, handler, Recorded(s.db.deliveries[exec.key], result));
  }

  lemma LoseDeliveryKeepsInv(s: Sys, handler: HandlerId)
    requires Inv(s)
    ensures Inv(DoLoseDelivery(s, handler))
  {
    if handler in s.execs {
      assert Holds(Executors, s) && Holds(Deliveries, s) && Holds(Timelines, s);
      ExecOwnsRow(s, handler, Ambiguous);
      RecordKeepsInv(s, s.execs[handler].key, Ambiguous, s.execs - {handler});
    } else {
      assert DoLoseDelivery(s, handler) == s;
    }
  }

  lemma FailDeliveryKeepsInv(s: Sys, handler: HandlerId, now: Instant)
    requires Inv(s)
    ensures Inv(DoFailDelivery(s, handler, now))
  {
    if handler in s.execs {
      assert Holds(Executors, s) && Holds(Deliveries, s) && Holds(Timelines, s);
      ExecOwnsRow(s, handler, DeliveryResult.Failed);
      var exec := s.execs[handler];
      if IsMergeKey(exec.key) && s.db.tasks[exec.preview.taskId].state.Merging? {
        FailedMergeKeepsInv(s, exec.key, exec.preview.taskId, now, s.execs - {handler});
      } else {
        RecordKeepsInv(s, exec.key, DeliveryResult.Failed, s.execs - {handler});
      }
    } else {
      assert DoFailDelivery(s, handler, now) == s;
    }
  }

  lemma SuccessPathIsLegal(capability: Capability, merged: bool, state: TaskState)
    ensures var path := D.SuccessPath(capability, merged, state);
            && LegalWalk(state, path)
            && (path != [] ==>
                  && PastVerification(state) && PastVerification(Last(path))
                  && Last(path) in {TaskState.Monitoring, Completed}
                  && (MergingOrCompleted(state) ==> Last(path).Completed?))
  {
  }

  lemma WholeWalkKeepsInv(s: Sys, id: TaskId, path: seq<TaskState>, now: Instant)
    requires Inv(s) && id in s.db.tasks && LegalWalk(s.db.tasks[id].state, path)
    requires path != [] ==>
               && PastVerification(s.db.tasks[id].state) && PastVerification(Last(path))
               && Last(path) in {TaskState.Monitoring, Completed}
               && (MergingOrCompleted(s.db.tasks[id].state) ==> Last(path).Completed?)
    ensures Inv(s.(db := SaveVersions(s.db, id, Versions(s.db.tasks[id], path, now))))
  {
    var versions := Versions(s.db.tasks[id], path, now);
    assert versions == versions[..|path|];
    if path == [] {
      assert s.(db := SaveVersions(s.db, id, versions)) == s;
    } else {
      MoveIsAllowed(s, id, Last(path), now);
      WalkKeepsInv(s, s.db.tasks[id], path, now, |path|);
    }
  }

  /** The state in which a success is recorded but its task has not moved yet. */
  function Succeeded(s: Sys, handler: HandlerId, merged: bool): Sys
    requires CanComplete(s, handler)
  {
    var key, result := s.execs[handler].key, DeliveryResult.Succeeded(merged);
    s.(db := RecordDelivery(s.db, key, result), execs := s.execs - {handler}, log := s.log + [DeliveryRecorded(key, result)])
  }

  lemma SucceededKeepsInv(s: Sys, handler: HandlerId, merged: bool)
    requires Inv(s) && handler in s.execs
    ensures CanComplete(s, handler) && Inv(Succeeded(s, handler, merged))
    ensures var id := s.execs[handler].preview.taskId; s.db.tasks[id].id == id
  {
    assert Holds(Executors, s) && Holds(Deliveries, s) && Holds(Timelines, s);
    ExecOwnsRow(s, handler, DeliveryResult.Succeeded(merged));
    RecordKeepsInv(s, s.execs[handler].key, DeliveryResult.Succeeded(merged), s.execs - {handler});
  }

  lemma SucceedDeliveryKeepsInv(s: Sys, handler: HandlerId, merged: bool, now: Instant)
    requires Inv(s)
    ensures Inv(DoSucceedDelivery(s, handler, merged, now))
  {
    if handler in s.execs {
      SucceededKeepsInv(s, handler, merged);
      var preview := s.execs[handler].preview;
      var path := D.SuccessPath(preview.action.ActionCapability(), merged, s.db.tasks[preview.taskId].state);
      SuccessPathIsLegal(preview.action.ActionCapability(), merged, s.db.tasks[preview.taskId].state);
      WholeWalkKeepsInv(Succeeded(s, handler, merged), preview.taskId, path, now);
    } else {
      assert DoSucceedDelivery(s, handler, merged, now) == s;
    }
  }

  // ----- Reconciliation -----

  lemma SyncKeepsInv(s: Sys, snapshot: Tables.Snapshot, now: Instant)
    requires Inv(s)
    ensures Inv(DoSyncSnapshot(s, snapshot, now))
  {
    SideTablesKeepInv(s, Synced(s.db, snapshot, now));
  }

  /** The row a reconciliation settles is ambiguous, so no executor holds it. */
  lemma AmbiguousIsFree(s: Sys, id: TaskId, key: Key, result: DeliveryResult)
    requires Holds(Executors, s) && IsAmbiguousFor(s.db.deliveries, id, key)
    ensures ExecInv(s.db.tasks, s.db.deliveries[key := Recorded(s.db.deliveries[key], result)], s.execs)
  {
    ExecElsewhere(s.db.tasks, s.db.deliveries, s.execs, key, Recorded(s.db.deliveries[key], result));
  }

  lemma ReconcileFailedKeepsInv(s: Sys, id: TaskId, key: Key, now: Instant)
    requires Inv(s) && id in s.db.tasks && s.db.tasks[id].state.Merging? && IsAmbiguousFor(s.db.deliveries, id, key)
    ensures Inv(s.(db := CompleteFailedMerge(s.db, key, Moved(s.db.tasks[id], AwaitingMergeApproval, now)),
                   log := s.log + [DeliveryRecorded(key, DeliveryResult.Failed)]))
  {
    assert Holds(Executors, s);
    AmbiguousIsFree(s, id, key, DeliveryResult.Failed);
    FailedMergeKeepsInv(s, key, id, now, s.execs);
  }

  lemma ReconcileRecordedKeepsInv(s: Sys, id: TaskId, key: Key)
    requires Inv(s) && IsAmbiguousFor(s.db.deliveries, id, key)
    ensures var result := DeliveryResult.Succeeded(true);
            Inv(s.(db := RecordDelivery(s.db, key, result), log := s.log + [DeliveryRecorded(key, result)]))
  {
    assert Holds(Executors, s);
    AmbiguousIsFree(s, id, key, DeliveryResult.Succeeded(true));
    RecordKeepsInv(s, key, DeliveryResult.Succeeded(true), s.execs);
  }

  lemma CompletionPathIsLegal(state: TaskState)
    requires D.CompletionPath(state).Some?
    ensures LegalWalk(state, D.CompletionPath(state).value) && D.CompletionPath(state).value != []
    ensures Last(D.CompletionPath(state).value).Completed? && PastVerification(state)
  {
  }

  lemma ReconcileCompletedKeepsInv(s: Sys, id: TaskId, now: Instant)
    requires Inv(s) && id in s.db.tasks && D.CompletionPath(s.db.tasks[id].state).Some?
    ensures Inv(s.(db := SaveVersions(s.db, id, Versions(s.db.tasks[id], D.CompletionPath(s.db.tasks[id].state).value, now))))
  {
    CompletionPathIsLegal(s.db.tasks[id].state);
    WholeWalkKeepsInv(s, id, D.CompletionPath(s.db.tasks[id].state).value, now);
  }

  lemma ReconcileKeepsInv(s: Sys, taskId: TaskId, snapshot: Tables.Snapshot, ambiguous: Option<Key>, now: Instant)
    requires Inv(s)
    ensures Inv(DoReconcile(s, taskId, snapshot, ambiguous, now))
  {
    if IsAmbiguousChoice(s.db.deliveries, taskId, ambiguous) {
      SyncKeepsInv(s, snapshot, now);
      if D.Reconcile(Synced(s.db, snapshot, now), taskId, snapshot, ambiguous, now).Ok? {
        ReconciledKeepsInv(s.(db := Synced(s.db, snapshot, now)), taskId, snapshot, ambiguous, now);
      }
    }
  }

  lemma ReconciledKeepsInv(s: Sys, taskId: TaskId, snapshot: Tables.Snapshot, ambiguous: Option<Key>, now: Instant)
    requires Inv(s) && IsAmbiguousChoice(s.db.deliveries, taskId, ambiguous)
    requires D.Reconcile(s.db, taskId, snapshot, ambiguous, now).Ok?
    ensures Inv(s.(db := D.Reconcile(s.db, taskId, snapshot, ambiguous, now).value,
                   log := s.log + Settled(s.db, taskId, snapshot, ambiguous)))
  {
    assert Holds(Timelines, s);
    RowIdentity(s.db.tasks, s.db.timeline, taskId);
    var item := D.ReconciledItem(s.db, taskId, snapshot).value;
    var state := s.db.tasks[taskId].state;
    if !D.RemotelyCompleted(item) {
      ReconcileFailedKeepsInv(s, taskId, ambiguous.value, now);
    } else if state.Merging? && ambiguous.Some? {
      ReconcileRecordedKeepsInv(s, taskId, ambiguous.value);
      var result := DeliveryResult.Succeeded(true);
      ReconcileCompletedKeepsInv(s.(db := RecordDelivery(s.db, ambiguous.value, result),
                                    log := s.log + [DeliveryRecorded(ambiguous.value, result)]), taskId, now);
    } else {
      assert s.log + [] == s.log;
      if !state.Completed? { ReconcileCompletedKeepsInv(s, taskId, now); }
    }
  }
}
