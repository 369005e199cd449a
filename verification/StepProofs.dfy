/** Every action keeps the invariant. */
module StepProofs {
  import opened Base
  import opened Sources
  import opened Domain
  import opened Contract
  import opened Capabilities
  import opened GitHubActions
  import opened Policy
  import opened Tables
  import opened Protocol
  import opened TimelineProofs
  import opened Invariant
  import opened TableProofs
  import D = DeliverySpec
  import L = LifecycleSpec
  import M = Monitoring

  // ----- One task moves -----

  lemma {:induction false} ContinuesIdentity(task: Task, versions: seq<Task>, n: nat)
    requires Continues(task, versions) && n < |versions|
    ensures SameIdentity(task, versions[n])
  {
    if n > 0 {
      ContinuesIdentity(task, versions, n - 1);
    }
  }

  /** What a version of one task must respect for its write to keep every other table in agreement. */
  ghost predicate WriteAllowed(s: Sys, id: TaskId, task: Task) {
    && Lawful(s.db.tasks, id, task)
    && (!task.state.Discovered? ==> id in s.db.contracts && Fits(task, s.db.contracts[id]))
    && (AtMergeGate(task.state) ==> id in s.mergeGate)
    && (task.state.Merging? ==> HoldsClaim(s.db.deliveries, s.mergeClaim, id))
    && (id in s.db.tasks && MergingOrCompleted(s.db.tasks[id].state) ==> MergingOrCompleted(task.state))
    && forall h :: h in s.preps && s.preps[h].phase.Read? ==> s.preps[h].preview.taskId != id
  }

  ghost predicate KeepsVerification(tasks: map<TaskId, Task>, id: TaskId, task: Task) {
    PastVerification(task.state) <==> id in tasks && PastVerification(tasks[id].state)
  }

  lemma WriteKeepsPart(s: Sys, part: Part, id: TaskId, task: Task, timeline: map<TaskId, seq<Task>>)
    requires Holds(part, s) && WriteAllowed(s, id, task) && TimelineInv(s.db.tasks[id := task], timeline)
    requires part == Verified ==> KeepsVerification(s.db.tasks, id, task)
    ensures Holds(part, s.(db := s.db.(tasks := s.db.tasks[id := task], timeline := timeline)))
  {
    match part
    case Contracts => PlannedWrite(s.db.tasks, s.db.contracts, id, task);
    case Monitors => MonitorWrite(s.db.tasks, s.db.monitors, id, task);
    case Gates => GateWrite(s.db.tasks, s.db.monitors, s.mergeGate, id, task);
    case Deliveries => DeliveryWrite(s.db.tasks, s.db.deliveries, s.mergeClaim, id, task);
    case Executors => ExecWrite(s.db.tasks, s.db.deliveries, s.execs, id, task);
    case MergeClaims => MergeOnceWrite(s.db.tasks, s.db.approvals, s.mergeGate, s.log, id, task);
    case Justifications => JustifiedWrite(s.db.tasks, s.db.contracts, s.db.bindings, s.db.approvals, s.log, id, task);
    case Preparations => PrepWrite(s.db.tasks, s.db.claims, s.preps, id, task);
    case Runs => RunsWrite(s.db.tasks, s.db.contracts, s.runs, s.live, id, task);
    case Verified => VerifiedWrite(s.db.tasks, s.runs, s.live, s.passed, id, task);
    case _ =>
  }

  lemma WriteKeepsInv(s: Sys, id: TaskId, task: Task, timeline: map<TaskId, seq<Task>>)
    requires Inv(s) && WriteAllowed(s, id, task) && TimelineInv(s.db.tasks[id := task], timeline)
    requires KeepsVerification(s.db.tasks, id, task)
    ensures Inv(s.(db := s.db.(tasks := s.db.tasks[id := task], timeline := timeline)))
  {
    var after := s.(db := s.db.(tasks := s.db.tasks[id := task], timeline := timeline));
    forall part ensures Holds(part, after) {
      assert Holds(part, s);
      WriteKeepsPart(s, part, id, task, timeline);
    }
  }

  lemma MoveKeepsInv(s: Sys, id: TaskId, versions: seq<Task>)
    requires Inv(s) && id in s.db.tasks && Continues(s.db.tasks[id], versions)
    requires versions != [] ==> WriteAllowed(s, id, Last(versions)) && KeepsVerification(s.db.tasks, id, Last(versions))
    ensures Inv(s.(db := SaveVersions(s.db, id, versions)))
  {
    if versions == [] {
      assert s.(db := SaveVersions(s.db, id, versions)) == s;
    } else {
      assert Holds(Timelines, s);
      SaveKeepsTimeline(s.db, id, versions);
      WriteKeepsInv(s, id, Last(versions), SaveVersions(s.db, id, versions).timeline);
    }
  }

  /** A walk of a stored task, possibly with other fields set, of which a prefix is saved. */
  lemma WalkKeepsInv(s: Sys, task: Task, path: seq<TaskState>, now: Instant, written: nat)
    requires Inv(s) && task.id in s.db.tasks && SameIdentity(s.db.tasks[task.id], task)
    requires s.db.tasks[task.id].state == task.state && LegalWalk(task.state, path) && written <= |path|
    requires written > 0 ==>
               && WriteAllowed(s, task.id, Moved(task, path[written - 1], now))
               && KeepsVerification(s.db.tasks, task.id, Moved(task, path[written - 1], now))
    ensures Inv(s.(db := SaveVersions(s.db, task.id, Versions(task, path, now)[..written])))
  {
    var versions := Versions(task, path, now)[..written];
    WalkContinues(task, path, now, written);
    assert written > 0 ==> Last(versions) == Moved(task, path[written - 1], now);
    MoveKeepsInv(s, task.id, versions);
  }

  /** A planned task that no preparation has read may take any state that keeps the milestones behind it. */
  lemma MoveIsAllowed(s: Sys, id: TaskId, next: TaskState, now: Instant)
    requires Inv(s) && id in s.db.tasks
    requires !s.db.tasks[id].state.Discovered? && !s.db.tasks[id].state.AwaitingPreparationApproval? && !next.Discovered?
    requires AtMergeGate(next) ==> AtMergeGate(s.db.tasks[id].state) || id in s.mergeGate
    requires !next.Merging?
    requires MergingOrCompleted(s.db.tasks[id].state) ==> MergingOrCompleted(next)
    requires PastVerification(next) <==> PastVerification(s.db.tasks[id].state)
    ensures s.db.tasks[id].id == id && WriteAllowed(s, id, Moved(s.db.tasks[id], next, now))
    ensures KeepsVerification(s.db.tasks, id, Moved(s.db.tasks[id], next, now))
  {
    assert Holds(Timelines, s) && Holds(Contracts, s) && Holds(Preparations, s) && Holds(Gates, s);
    RowIdentity(s.db.tasks, s.db.timeline, id);
    ReadPreparationWaits(s.db.tasks, s.db.claims, s.preps, id);
  }

  lemma CreateKeepsInv(s: Sys, task: Task)
    requires Inv(s) && task.id !in s.db.tasks && task.state.Discovered?
    ensures Inv(s.(db := SaveTask(s.db, task)))
  {
    assert Holds(Timelines, s) && Holds(Preparations, s);
    CreateKeepsTimeline(s.db, task);
    ReadPreparationWaits(s.db.tasks, s.db.claims, s.preps, task.id);
    WriteKeepsInv(s, task.id, task, SaveTask(s.db, task).timeline);
  }

  // ----- Creation, binding, synchronization -----

  predicate SameCore(a: Db, b: Db) {
    && a.tasks == b.tasks && a.timeline == b.timeline && a.contracts == b.contracts && a.approvals == b.approvals
    && a.claims == b.claims && a.deliveries == b.deliveries && a.evidence == b.evidence && a.monitors == b.monitors
    && forall id :: id in a.bindings ==> id in b.bindings && b.bindings[id] == a.bindings[id]
  }

  lemma SideTablesKeepInv(s: Sys, db: Db)
    requires Inv(s) && SameCore(s.db, db)
    ensures Inv(s.(db := db))
  {
    forall part ensures Holds(part, s.(db := db)) {
      assert Holds(part, s);
      if part == Justifications {
        JustifiedGrows(s.db.tasks, s.db.contracts, s.db.bindings, db.bindings, s.db.approvals, s.db.approvals, s.log);
      }
    }
  }

  lemma CreateTaskKeepsInv(s: Sys, id: TaskId, title: string, repositoryPath: string, now: Instant)
    requires Inv(s)
    ensures Inv(DoCreateTask(s, id, title, repositoryPath, now))
  {
    if CanCreate(s.db, id, title, repositoryPath) {
      CreateKeepsInv(s, NewTask(id, title, repositoryPath, LocalRequest, None, now));
    }
  }

  lemma ConvertTaskKeepsInv(s: Sys, id: TaskId, title: string, repositoryPath: string, source: TaskSource,
                            bindingId: BindingId, now: Instant)
    requires Inv(s)
    ensures Inv(DoConvertTask(s, id, title, repositoryPath, source, bindingId, now))
  {
    var after := DoConvertTask(s, id, title, repositoryPath, source, bindingId, now);
    if after != s {
      var created := s.(db := SaveTask(s.db, NewTask(id, title, repositoryPath, source, Some(bindingId), now)));
      CreateKeepsInv(s, NewTask(id, title, repositoryPath, source, Some(bindingId), now));
      SideTablesKeepInv(created, after.db);
      assert after == created.(db := after.db);
    }
  }

  lemma BindRepositoryKeepsInv(s: Sys, binding: RepositoryBinding)
    requires Inv(s)
    ensures Inv(DoBindRepository(s, binding))
  {
    if CanBind(s.db, binding) {
      SideTablesKeepInv(s, s.db.(bindings := s.db.bindings[binding.id := binding]));
    }
  }

  // ----- Planning -----

  lemma ContractKeepsInv(s: Sys, id: TaskId, contract: TaskContract)
    requires Inv(s) && id in s.db.tasks && s.db.tasks[id].state.Discovered?
    ensures Inv(s.(db := s.db.(contracts := s.db.contracts[id := contract])))
  {
    var after := s.(db := s.db.(contracts := s.db.contracts[id := contract]));
    forall part ensures Holds(part, after) {
      assert Holds(part, s);
      match part
      case Runs => RunsContract(s.db.tasks, s.db.contracts, s.runs, s.live, id, contract);
      case Justifications => JustifiedContract(s.db.tasks, s.db.contracts, s.db.bindings, s.db.approvals, s.log, id, contract);
      case _ =>
    }
  }

  lemma RunsContract(tasks: map<TaskId, Task>, contracts: map<TaskId, TaskContract>, runs: map<RunId, VerificationRun>,
                     live: set<RunId>, id: TaskId, contract: TaskContract)
    requires RunsInv(tasks, contracts, runs, live) && id in tasks && tasks[id].state.Discovered?
    ensures RunsInv(tasks, contracts[id := contract], runs, live)
  {
  }

  lemma PlansKeepInv(s: Sys, plans: map<HandlerId, L.PlanJob>)
    requires Inv(s) && PlansInv(plans)
    ensures Inv(s.(plans := plans))
  {
    forall part ensures Holds(part, s.(plans := plans)) {
      assert Holds(part, s);
    }
  }

  lemma PlanCommitKeepsInv(s: Sys, job: L.PlanJob, contract: TaskContract, now: Instant, written: nat)
    requires Inv(s) && written <= 4
    requires job.task.id in s.db.tasks && s.db.tasks[job.task.id] == job.task && job.task.state.Discovered?
    requires Fits(job.task, contract)
    ensures Inv(s.(db := L.PlanCommit(s.db, job, contract, now, written)))
  {
    var id := job.task.id;
    if written > 0 {
      ContractKeepsInv(s, id, contract);
      var contracted := s.(db := s.db.(contracts := s.db.contracts[id := contract]));
      PlanWalkKeepsInv(contracted, job.task.(contractVersion := contract.version), now, written - 1);
    }
  }

  lemma PlanWalkKeepsInv(s: Sys, planned: Task, now: Instant, written: nat)
    requires Inv(s) && written <= 3
    requires planned.id in s.db.tasks && SameIdentity(s.db.tasks[planned.id], planned)
    requires s.db.tasks[planned.id].state.Discovered? && planned.state.Discovered?
    requires planned.id in s.db.contracts && Fits(planned, s.db.contracts[planned.id])
    ensures Inv(s.(db := SaveVersions(s.db, planned.id, Versions(planned, L.PLAN_PATH, now)[..written])))
  {
    assert Holds(Preparations, s);
    ReadPreparationWaits(s.db.tasks, s.db.claims, s.preps, planned.id);
    WalkKeepsInv(s, planned, L.PLAN_PATH, now, written);
  }

  lemma CommitPlanKeepsInv(s: Sys, handler: HandlerId, draft: TaskContractDraft, now: Instant, written: nat)
    requires Inv(s)
    ensures Inv(DoCommitPlan(s, handler, draft, now, written))
  {
    assert Holds(Plans, s);
    PlansKeepInv(s, s.plans - {handler});
    if PlanStillValid(s, handler, draft, written) {
      PlanCommitKeepsInv(s.(plans := s.plans - {handler}), s.plans[handler], ContractOf(draft), now, written);
    }
  }

  // ----- Approvals -----

  /** Approvals may be added and invalidated, never changed or revived. */
  lemma ApprovalsKeepInv(s: Sys, approvals: map<ApprovalId, ApprovalRow>)
    requires Inv(s)
    requires forall id :: id in s.db.approvals ==> id in approvals && approvals[id].approval == s.db.approvals[id].approval
    requires forall id :: id in s.db.approvals && s.db.approvals[id].invalidated ==> approvals[id].invalidated
    ensures Inv(s.(db := s.db.(approvals := approvals)))
  {
    var after := s.(db := s.db.(approvals := approvals));
    forall part ensures Holds(part, after) {
      assert Holds(part, s);
      match part
      case MergeClaims => MergeOnceApprovals(s.db.tasks, s.db.approvals, approvals, s.mergeGate, s.log);
      case Justifications =>
        JustifiedGrows(s.db.tasks, s.db.contracts, s.db.bindings, s.db.bindings, s.db.approvals, approvals, s.log);
      case _ =>
    }
  }

  lemma ApprovePreparationKeepsInv(s: Sys, preview: L.PreparationPreview, id: ApprovalId, approvedBy: string, now: Instant)
    requires Inv(s)
    ensures Inv(DoApprovePreparation(s, preview, id, approvedBy, now))
  {
    if id !in s.db.approvals && L.ApprovePreparation(s.db, preview, id, approvedBy, now).Ok? {
      var approval := Approval(id, ApprovalClass.Preparation, PrepareWorktree, preview.fingerprint, Trim(approvedBy), now,
                               now + APPROVAL_DURATION);
      ApprovalsKeepInv(s, s.db.approvals[id := ApprovalRow(approval, false)]);
    }
  }

  lemma ApproveDeliveryKeepsInv(s: Sys, preview: D.DeliveryPreview, id: ApprovalId, approvedBy: string, now: Instant,
                                worktreeHead: Option<Sha>)
    requires Inv(s)
    ensures Inv(DoApproveDelivery(s, preview, id, approvedBy, now, worktreeHead))
  {
    if id !in s.db.approvals && D.ApproveDelivery(s.db, preview, id, approvedBy, now, worktreeHead).Ok? {
      ApprovalsKeepInv(s, s.db.approvals[id := ApprovalRow(D.DeliveryApproval(preview, id, Trim(approvedBy), now), false)]);
    }
  }

  // ----- Preparation -----

  lemma ClaimPreparationKeepsInv(s: Sys, handler: HandlerId, preview: L.PreparationPreview, approvalId: ApprovalId,
                                 automationDisabled: bool, now: Instant, claimedAt: Instant)
    requires Inv(s)
    ensures Inv(DoClaimPreparation(s, handler, preview, approvalId, automationDisabled, now, claimedAt))
  {
    var r := L.AuthorizePreparation(s.db, preview, approvalId, automationDisabled, now, claimedAt);
    if handler !in s.preps && r.Ok? {
      ClaimedPreparationKeepsInv(s, handler, preview, approvalId, ClaimRow(preview.taskId, preview.fingerprint, Active));
    }
  }

  lemma ClaimedPreparationKeepsInv(s: Sys, handler: HandlerId, preview: L.PreparationPreview, approvalId: ApprovalId,
                                   row: ClaimRow)
    requires Inv(s) && handler !in s.preps && approvalId !in s.db.claims
    requires row.result.Active? && row.taskId == preview.taskId && !HasActiveClaim(s.db.claims, preview.taskId)
    ensures Inv(s.(db := s.db.(claims := s.db.claims[approvalId := row]),
                   preps := s.preps[handler := Prep(approvalId, preview, Authorized)],
                   log := s.log + [PreparationClaimed(approvalId, preview.taskId)]))
  {
    var event, prep := PreparationClaimed(approvalId, preview.taskId), Prep(approvalId, preview, Authorized);
    var after := s.(db := s.db.(claims := s.db.claims[approvalId := row]), preps := s.preps[handler := prep],
                    log := s.log + [event]);
    forall part ensures Holds(part, after) {
      assert Holds(part, s);
      match part
      case DeliveryLog => LogQuiet(s.log, s.db.deliveries, event);
      case MergeClaims => MergeOnceQuiet(s.db.tasks, s.db.approvals, s.mergeGate, s.log, event);
      case Justifications => JustifiedQuiet(s.db.tasks, s.db.contracts, s.db.bindings, s.db.approvals, s.log, event);
      case Preparations => PrepClaim(s.db.tasks, s.db.claims, s.preps, row, handler, prep);
      case PreparationLog => PrepLogClaim(s.db.claims, s.log, row, event);
      case VerificationLog => VerifyLogQuiet(s.passed, s.log, event);
      case _ =>
    }
  }

  lemma PrepsKeepInv(s: Sys, preps: map<HandlerId, Prep>)
    requires Inv(s) && PrepInv(s.db.tasks, s.db.claims, preps)
    ensures Inv(s.(preps := preps))
  {
    forall part ensures Holds(part, s.(preps := preps)) {
      assert Holds(part, s);
    }
  }

  lemma ReadPreparationKeepsInv(s: Sys, handler: HandlerId)
    requires Inv(s)
    ensures Inv(DoReadPreparation(s, handler))
  {
    if handler in s.preps && s.preps[handler].phase.Authorized? {
      assert Holds(Timelines, s) && Holds(Preparations, s);
      var prep := s.preps[handler];
      var id := prep.preview.taskId;
      if L.PreviewPreparation(s.db, id) == Ok(prep.preview) {
        RowIdentity(s.db.tasks, s.db.timeline, id);
        PrepPhaseChange(s.db.tasks, s.db.claims, s.preps, handler, Read(s.db.tasks[id]));
        PrepsKeepInv(s, s.preps[handler := prep.(phase := Read(s.db.tasks[id]))]);
      } else {
        AbandonPreparationKeepsInv(s, handler);
      }
    }
  }

  lemma AbandonPreparationKeepsInv(s: Sys, handler: HandlerId)
    requires Inv(s)
    ensures Inv(DoAbandonPreparation(s, handler))
  {
    if handler in s.preps && !s.preps[handler].phase.Saved? {
      assert Holds(Preparations, s);
      PrepPhaseChange(s.db.tasks, s.db.claims, s.preps, handler, Abandoned);
      PrepsKeepInv(s, s.preps[handler := s.preps[handler].(phase := Abandoned)]);
    }
  }

  /** The copy that is saved is still the stored task. */
  lemma SavedCopyIsCurrent(s: Sys, handler: HandlerId)
    requires Inv(s) && handler in s.preps && s.preps[handler].phase.Read?
    ensures var prep := s.preps[handler];
            && prep.phase.task.id == prep.preview.taskId && prep.preview.taskId in s.db.tasks
            && s.db.tasks[prep.preview.taskId] == prep.phase.task
            && prep.phase.task.state.AwaitingPreparationApproval?
  {
    assert Holds(Preparations, s);
    assert PrepRowInv(s.db.tasks, s.db.claims, s.preps[handler]);
  }

  lemma SavePreparationKeepsInv(s: Sys, handler: HandlerId, checkpointId: CheckpointId, now: Instant)
    requires Inv(s)
    ensures Inv(DoSavePreparation(s, handler, checkpointId, now))
  {
    if handler in s.preps && s.preps[handler].phase.Read? {
      SavedCopyIsCurrent(s, handler);
      var prep := s.preps[handler];
      var saved := s.(preps := s.preps[handler := prep.(phase := Saved)]);
      assert Holds(Preparations, s);
      PrepPhaseChange(s.db.tasks, s.db.claims, s.preps, handler, Saved);
      PrepsKeepInv(s, saved.preps);
      SavedPreparationKeepsInv(saved, handler, L.PreparedTask(prep.phase.task, prep.preview, checkpointId, now));
    }
  }

  lemma SavedPreparationKeepsInv(s: Sys, handler: HandlerId, task: Task)
    requires Inv(s) && handler in s.preps && s.preps[handler].phase.Saved?
    requires task.id == s.preps[handler].preview.taskId && task.id in s.db.tasks
    requires SameIdentity(s.db.tasks[task.id], task)
    requires s.db.tasks[task.id].state.AwaitingPreparationApproval? && task.state.Preparing?
    ensures Inv(s.(db := SaveTask(s.db, task)))
  {
    assert Holds(Preparations, s) && Holds(Contracts, s);
    forall g | g in s.preps && s.preps[g].phase.Read?
      ensures s.preps[g].preview.taskId != task.id
    {
      if s.preps[g].preview.taskId == task.id {
        ReadPreparationAlone(s.db.tasks, s.db.claims, s.preps, handler, g);
      }
    }
    MoveKeepsInv(s, task.id, [task]);
  }

  lemma ReleasePreparationKeepsInv(s: Sys, handler: HandlerId)
    requires Inv(s)
    ensures Inv(DoReleasePreparation(s, handler))
  {
    if handler in s.preps && (s.preps[handler].phase.Saved? || s.preps[handler].phase.Abandoned?) {
      var prep := s.preps[handler];
      assert Holds(Preparations, s);
      assert PrepRowInv(s.db.tasks, s.db.claims, prep);
      var result := if prep.phase.Saved? then ClaimResult.Succeeded else ClaimResult.Failed;
      ReleasedPreparationKeepsInv(s, handler, s.db.claims[prep.approvalId].(result := result));
    }
  }

  lemma ReleasedPreparationKeepsInv(s: Sys, handler: HandlerId, row: ClaimRow)
    requires Inv(s) && handler in s.preps && s.preps[handler].approvalId in s.db.claims && !row.result.Active?
    ensures Inv(s.(db := s.db.(claims := s.db.claims[s.preps[handler].approvalId := row]), preps := s.preps - {handler}))
  {
    var after := s.(db := s.db.(claims := s.db.claims[s.preps[handler].approvalId := row]), preps := s.preps - {handler});
    forall part ensures Holds(part, after) {
      assert Holds(part, s);
      if part == Preparations { PrepRelease(s.db.tasks, s.db.claims, s.preps, handler, row); }
    }
  }

  // ----- Verification -----

  lemma BeginVerificationKeepsInv(s: Sys, runId: RunId, taskId: TaskId, now: Instant, written: nat)
    requires Inv(s)
    ensures Inv(DoBeginVerification(s, runId, taskId, now, written))
  {
    if runId !in s.runs && L.CanVerify(s.db, taskId) && written <= |L.VerifyEntryPath(s.db.tasks[taskId].state)| {
      VerifyEntryKeepsInv(s, taskId, now, written);
      var db := L.VerifyEntry(s.db, taskId, now, written);
      if db.tasks[taskId].state.Verifying? && taskId in db.contracts && db.contracts[taskId].verificationCommands != [] {
        var run := VerificationRun(db.tasks[taskId], db.contracts[taskId].verificationCommands, []);
        RunBeginsKeepsInv(s.(db := db), runId, taskId, run);
      }
    }
  }

  lemma VerifyEntryPathIsLegal(state: TaskState, written: nat)
    requires state in {Preparing, Implementing, Verifying}
    requires written <= |L.VerifyEntryPath(state)|
    ensures LegalWalk(state, L.VerifyEntryPath(state))
    ensures written > 0 ==> L.VerifyEntryPath(state)[written - 1] in {Implementing, Verifying}
  {
  }

  lemma VerifyEntryKeepsInv(s: Sys, taskId: TaskId, now: Instant, written: nat)
    requires Inv(s) && L.CanVerify(s.db, taskId) && written <= |L.VerifyEntryPath(s.db.tasks[taskId].state)|
    ensures Inv(s.(db := L.VerifyEntry(s.db, taskId, now, written)))
  {
    if written == 0 {
      assert s.(db := L.VerifyEntry(s.db, taskId, now, written)) == s;
      return;
    }
    var path := L.VerifyEntryPath(s.db.tasks[taskId].state);
    VerifyEntryPathIsLegal(s.db.tasks[taskId].state, written);
    MoveIsAllowed(s, taskId, path[written - 1], now);
    WalkKeepsInv(s, s.db.tasks[taskId], path, now, written);
  }

  lemma RunBeginsKeepsInv(s: Sys, runId: RunId, taskId: TaskId, run: VerificationRun)
    requires Inv(s) && runId !in s.runs && taskId in s.db.tasks && taskId in s.db.contracts
    requires s.db.tasks[taskId].state.Verifying?
    requires run == VerificationRun(s.db.tasks[taskId], s.db.contracts[taskId].verificationCommands, [])
    ensures Inv(s.(live := s.live + {runId}, runs := s.runs[runId := run]))
  {
    assert Holds(Timelines, s);
    RowIdentity(s.db.tasks, s.db.timeline, taskId);
    var after := s.(live := s.live + {runId}, runs := s.runs[runId := run]);
    forall part ensures Holds(part, after) {
      assert Holds(part, s);
      match part
      case Runs => RunBegins(s.db.tasks, s.db.contracts, s.runs, s.live, runId, run);
      case Evidence => EvidenceNewRun(s.db.evidence, s.runs, runId, run);
      case _ =>
    }
  }

  lemma RunCommandKeepsInv(s: Sys, runId: RunId, success: bool)
    requires Inv(s)
    ensures Inv(DoRunVerificationCommand(s, runId, success))
  {
    if CanRunNext(s, runId) {
      var after := DoRunVerificationCommand(s, runId, success);
      forall part ensures Holds(part, after) {
        assert Holds(part, s);
        match part
        case Runs => RunAdvances(s.db.tasks, s.db.contracts, s.runs, s.live, runId, success);
        case Evidence => EvidenceAdvances(s.db.evidence, s.runs, runId, success);
        case _ =>
      }
    }
  }

  lemma FewerLiveKeepsInv(s: Sys, live: set<RunId>)
    requires Inv(s) && live <= s.live
    ensures Inv(s.(live := live))
  {
    forall part ensures Holds(part, s.(live := live)) {
      assert Holds(part, s);
      if part == Runs { RunEnds(s.db.tasks, s.db.contracts, s.runs, s.live, live); }
    }
  }

  lemma AbandonVerificationKeepsInv(s: Sys, runId: RunId)
    requires Inv(s)
    ensures Inv(DoAbandonVerification(s, runId))
  {
    FewerLiveKeepsInv(s, s.live - {runId});
  }

  lemma CommitVerificationKeepsInv(s: Sys, runId: RunId, checkpointId: CheckpointId, now: Instant, written: nat)
    requires Inv(s)
    ensures Inv(DoCommitVerification(s, runId, checkpointId, now, written))
  {
    FewerLiveKeepsInv(s, s.live - {runId});
    if CanCommit(s, runId, written) && written > 0 {
      assert Holds(Runs, s);
      assert RunInv(s.db.tasks, s.db.contracts, true, s.runs[runId]);
      PassedRunKeepsInv(s.(live := s.live - {runId}), runId, checkpointId, now, written);
    }
  }

  lemma VerifiedVersionsContinue(task: Task, checkpointId: CheckpointId, now: Instant, written: nat)
    requires task.state.Verifying? && 0 < written <= 2
    ensures var versions := L.VerifiedVersions(task, checkpointId, now)[..written];
            && Continues(task, versions) && SameIdentity(task, Last(versions))
            && Last(versions).state in {Reviewing, AwaitingDeliveryApproval}
  {
  }

  lemma PassedRunKeepsInv(s: Sys, runId: RunId, checkpointId: CheckpointId, now: Instant, written: nat)
    requires Inv(s) && runId in s.runs && 0 < written <= 2
    requires var task := s.runs[runId].task;
             && task.id in s.db.tasks && s.db.tasks[task.id] == task && task.state.Verifying?
             && PassedInv(s.runs, s.live, task.id, runId)
    ensures var task := s.runs[runId].task;
            Inv(s.(db := L.VerifyCommit(s.db, task, checkpointId, now, written),
                   passed := s.passed[task.id := runId], log := s.log + [VerificationCommitted(task.id, runId)]))
  {
    var task := s.runs[runId].task;
    var versions := L.VerifiedVersions(task, checkpointId, now)[..written];
    assert Holds(Timelines, s);
    VerifiedVersionsContinue(task, checkpointId, now, written);
    SaveKeepsTimeline(s.db, task.id, versions);
    VerifiedKeepsInv(s, task.id, runId, Last(versions), L.VerifyCommit(s.db, task, checkpointId, now, written).timeline);
  }

  lemma VerifiedKeepsInv(s: Sys, id: TaskId, runId: RunId, task: Task, timeline: map<TaskId, seq<Task>>)
    requires Inv(s) && PassedInv(s.runs, s.live, id, runId)
    requires id in s.db.tasks && s.db.tasks[id].state.Verifying?
    requires Lawful(s.db.tasks, id, task) && task.state in {Reviewing, AwaitingDeliveryApproval}
    requires TimelineInv(s.db.tasks[id := task], timeline)
    ensures Inv(s.(db := s.db.(tasks := s.db.tasks[id := task], timeline := timeline),
                   passed := s.passed[id := runId], log := s.log + [VerificationCommitted(id, runId)]))
  {
    var event := VerificationCommitted(id, runId);
    var logged := s.(passed := s.passed[id := runId], log := s.log + [event]);
    var after := logged.(db := s.db.(tasks := s.db.tasks[id := task], timeline := timeline));
    VerifiedAllowed(s, id, task);
    forall part ensures Holds(part, after) {
      assert Holds(part, s) && Holds(Verified, s);
      if part != Verified {
        VerificationLogged(s, part, event);
        WriteKeepsPart(logged, part, id, task, timeline);
      } else {
        VerifiedCommit(s.db.tasks, s.runs, s.live, s.passed, id, task, runId);
      }
    }
  }

  lemma VerifiedAllowed(s: Sys, id: TaskId, task: Task)
    requires Inv(s) && id in s.db.tasks && s.db.tasks[id].state.Verifying?
    requires Lawful(s.db.tasks, id, task) && task.state in {Reviewing, AwaitingDeliveryApproval}
    ensures WriteAllowed(s, id, task)
  {
    assert Holds(Contracts, s) && Holds(Preparations, s);
    ReadPreparationWaits(s.db.tasks, s.db.claims, s.preps, id);
  }

  lemma VerificationLogged(s: Sys, part: Part, event: Event)
    requires Inv(s) && event.VerificationCommitted? && event.taskId !in s.passed && part != Verified
    ensures Holds(part, s.(log := s.log + [event], passed := s.passed[event.taskId := event.runId]))
  {
    assert Holds(part, s);
    match part
    case DeliveryLog => LogQuiet(s.log, s.db.deliveries, event);
    case MergeClaims => MergeOnceQuiet(s.db.tasks, s.db.approvals, s.mergeGate, s.log, event);
    case Justifications => JustifiedQuiet(s.db.tasks, s.db.contracts, s.db.bindings, s.db.approvals, s.log, event);
    case PreparationLog => PrepLogQuiet(s.db.claims, s.log, event);
    case VerificationLog => VerifyLogCommit(s.passed, s.log, event);
    case _ =>
  }

  // ----- Monitors -----

  lemma MonitorsKeepInv(s: Sys, monitors: map<MonitorId, MonitorRow>)
    requires Inv(s) && MonitorInv(s.db.tasks, monitors) && GateInv(s.db.tasks, monitors, s.mergeGate)
    ensures Inv(s.(db := s.db.(monitors := monitors)))
  {
    forall part ensures Holds(part, s.(db := s.db.(monitors := monitors))) {
      assert Holds(part, s);
    }
  }

  lemma StartMonitorKeepsInv(s: Sys, id: MonitorId, request: L.MonitorStartRequest, now: Instant)
    requires Inv(s)
    ensures Inv(DoStartMonitor(s, id, request, now))
  {
    if id !in s.db.monitors && L.CanStartMonitor(s.db, request, now) {
      assert Holds(Monitors, s) && Holds(Gates, s);
      var monitor := M.NewMonitor(id, request.taskId, request.repositoryFullName, request.pullRequestNumber,
                                  request.expectedHeadSha, request.expectedBaseSha,
                                  s.db.snapshots[request.repositoryFullName].syncedAt, request.repairBudget);
      MonitorInsert(s.db.tasks, s.db.monitors, s.mergeGate, id, RowOf(monitor));
      MonitorsKeepInv(s, s.db.monitors[id := RowOf(monitor)]);
    }
  }

  lemma NextMonitorKeepsInv(s: Sys, id: MonitorId, next: M.Monitor)
    requires Inv(s) && id in s.db.monitors && !s.db.monitors[id].payload.state.Succeeded?
    requires M.Sound(s.db.monitors[id].payload) ==> M.SameTarget(s.db.monitors[id].payload, next) && M.Sound(next)
    ensures Inv(s.(db := SaveMonitor(s.db, next)))
    ensures next.id == id && SaveMonitor(s.db, next).monitors == s.db.monitors[id := RowOf(next)]
  {
    assert Holds(Monitors, s) && Holds(Gates, s);
    assert MonitorRowInv(s.db.tasks, id, s.db.monitors[id]);
    MonitorUpdate(s.db.tasks, s.db.monitors, s.mergeGate, id, next);
    MonitorsKeepInv(s, s.db.monitors[id := RowOf(next)]);
  }

  lemma WakeMonitorKeepsInv(s: Sys, id: MonitorId, now: Instant)
    requires Inv(s)
    ensures Inv(DoWakeMonitor(s, id, now))
  {
    if id in s.db.monitors && s.db.monitors[id].payload.state.Pending? {
      NextMonitorKeepsInv(s, id, M.Woken(s.db.monitors[id].payload, now));
    }
  }

  lemma CancelMonitorKeepsInv(s: Sys, id: MonitorId, now: Instant)
    requires Inv(s)
    ensures Inv(DoCancelMonitor(s, id, now))
  {
    if id in s.db.monitors && !s.db.monitors[id].payload.state.IsTerminal() {
      NextMonitorKeepsInv(s, id, M.CancelledBy(s.db.monitors[id].payload, now));
    }
  }

  lemma IngestWebhookKeepsInv(s: Sys, webhook: Webhook, now: Instant)
    requires Inv(s)
    ensures Inv(DoIngestWebhook(s, webhook, now))
  {
    if webhook.deliveryId !in s.db.webhooks {
      assert Holds(Monitors, s) && Holds(Gates, s);
      MonitorsWoken(s.db.tasks, s.db.monitors, s.mergeGate, webhook, now);
      var woken := s.(db := s.db.(monitors := WokenMonitors(s.db.monitors, webhook, now)));
      MonitorsKeepInv(s, woken.db.monitors);
      SideTablesKeepInv(woken, Tables.IngestWebhook(s.db, webhook, now));
    }
  }

  lemma InvalidateKeepsInv(s: Sys, taskId: TaskId)
    requires Inv(s)
    ensures Inv(s.(db := InvalidateTaskApprovals(s.db, taskId)))
  {
    ApprovalsKeepInv(s, InvalidatedFor(s.db.approvals, taskId));
  }

  lemma ObserveMonitorKeepsInv(s: Sys, id: MonitorId, now: Instant, saved: bool)
    requires Inv(s)
    ensures Inv(DoObserveMonitor(s, id, now, saved))
  {
    if L.CanObserveMonitor(s.db, id, now) {
      var monitor := s.db.monitors[id].payload;
      var next := M.Observed(monitor, L.FreshObservation(s.db, monitor, now).value, now);
      assert Holds(Monitors, s);
      assert MonitorRowInv(s.db.tasks, id, s.db.monitors[id]);
      M.CallKeepsSound(monitor, M.MonitorCall.Observe(L.FreshObservation(s.db, monitor, now).value, now));
      InvalidateKeepsInv(s, monitor.taskId);
      if saved && next.state.Succeeded? {
        NextMonitorKeepsInv(s, id, next);
        GreenMonitorKeepsInv(s.(db := SaveMonitor(s.db, next)), id, next, now);
      } else if saved {
        var cleared := if M.OutcomeOf(next).invalidateApprovals then InvalidateTaskApprovals(s.db, monitor.taskId) else s.db;
        NextMonitorKeepsInv(s.(db := cleared), id, next);
      }
    }
  }

  /** A monitor that has just succeeded moves its task to the merge gate. */
  lemma GreenMonitorKeepsInv(s: Sys, id: MonitorId, monitor: M.Monitor, now: Instant)
    requires Inv(s) && id in s.db.monitors && s.db.monitors[id] == RowOf(monitor) && monitor.state.Succeeded?
    requires monitor.taskId in s.db.tasks && s.db.tasks[monitor.taskId].state.Monitoring?
    ensures Inv(s.(db := SaveTask(s.db, Moved(s.db.tasks[monitor.taskId], AwaitingMergeApproval, now)),
                   mergeGate := s.mergeGate[monitor.taskId := id]))
  {
    var taskId := monitor.taskId;
    assert Holds(Monitors, s);
    assert MonitorRowInv(s.db.tasks, id, s.db.monitors[id]);
    GateOpensKeepsInv(s, taskId, id);
    var gated := s.(mergeGate := s.mergeGate[taskId := id]);
    MoveIsAllowed(gated, taskId, AwaitingMergeApproval, now);
    MoveKeepsInv(gated, taskId, [Moved(s.db.tasks[taskId], AwaitingMergeApproval, now)]);
  }

  lemma GateOpensKeepsInv(s: Sys, id: TaskId, monitorId: MonitorId)
    requires Inv(s) && id in s.db.tasks && OpenedBy(s.db.monitors, id, monitorId)
    ensures Inv(s.(mergeGate := s.mergeGate[id := monitorId]))
  {
    var after := s.(mergeGate := s.mergeGate[id := monitorId]);
    forall part ensures Holds(part, after) {
      assert Holds(part, s);
      match part
      case Gates => GateOpens(s.db.tasks, s.db.monitors, s.mergeGate, id, monitorId);
      case MergeClaims => MergeOnceGate(s.db.tasks, s.db.approvals, s.mergeGate, s.log, id, monitorId);
      case _ =>
    }
  }

  // ----- Restart -----

  lemma RestartKeepsInv(s: Sys)
    requires Inv(s)
    ensures Inv(DoRestart(s))
  {
    var after := DoRestart(s);
    forall part ensures Holds(part, after) {
      assert Holds(part, s);
      if part == Runs { RunEnds(s.db.tasks, s.db.contracts, s.runs, s.live, {}); }
    }
  }
}
