/** The merge gate over whole runs: it was opened by an observation of a green pull request in the
    snapshot that was stored at that moment. */
module GateTheorems {
  import opened Base
  import opened Sources
  import opened Domain
  import opened Contract
  import opened Tables
  import opened Protocol
  import opened Invariant
  import opened Reachability
  import DeliveryRules
  import MonitorRules
  import ReconcileRules
  import opened GitHubActions
  import D = DeliverySpec
  import L = LifecycleSpec
  import M = Monitoring

  /** The step observes the monitor on a green pull request of the stored snapshot. */
  ghost predicate SeesGreen(s: Sys, a: Action, m: MonitorId) {
    && a.ObserveMonitor? && a.monitorId == m && a.saved && m in s.db.monitors
    && exists i :: MonitorRules.Observable(s.db, m, a.now, i) && OnGreen(s.db, s.db.monitors[m].payload, i)
  }

  ghost predicate OnGreen(db: Db, monitor: M.Monitor, i: int) {
    && monitor.repositoryFullName in db.snapshots
    && 0 <= i < |db.snapshots[monitor.repositoryFullName].snapshot.workItems|
    && MonitorRules.IsGreen(monitor, db.snapshots[monitor.repositoryFullName].snapshot.workItems[i])
  }

  ghost predicate HasSucceeded(s: Sys, m: MonitorId) {
    m in s.db.monitors && s.db.monitors[m].payload.state.Succeeded?
  }

  /** Every success was there before, unchanged, or comes from seeing green. */
  ghost predicate SucceedsOnlyOnGreen(s: Sys, a: Action, t: Sys) {
    forall m :: HasSucceeded(t, m) ==>
      && m in s.db.monitors && M.SameTarget(s.db.monitors[m].payload, t.db.monitors[m].payload)
      && (HasSucceeded(s, m) || SeesGreen(s, a, m))
  }

  lemma ObservingSucceedsOnGreen(s: Sys, m: MonitorId, now: Instant, saved: bool)
    requires Holds(Monitors, s)
    ensures SucceedsOnlyOnGreen(s, Action.ObserveMonitor(m, now, saved), DoObserveMonitor(s, m, now, saved))
  {
    if L.CanObserveMonitor(s.db, m, now) {
      assert MonitorRowInv(s.db.tasks, m, s.db.monitors[m]);
      if saved {
        var i := ObservedRow(s.db, m, now);
        GreenRow(s, DoObserveMonitor(s, m, now, saved), m, now, i);
      } else {
        UnsavedKeeps(s.db, m, now);
        NothingIsNew(s, Action.ObserveMonitor(m, now, saved), DoObserveMonitor(s, m, now, saved));
      }
    } else {
      NothingIsNew(s, Action.ObserveMonitor(m, now, saved), s);
    }
  }

  lemma GreenRow(s: Sys, t: Sys, m: MonitorId, now: Instant, i: int)
    requires MonitorRules.Observable(s.db, m, now, i)
    requires m in t.db.monitors && t.db.monitors == s.db.monitors[m := t.db.monitors[m]]
    requires M.SameTarget(s.db.monitors[m].payload, t.db.monitors[m].payload)
    requires HasSucceeded(t, m) ==> OnGreen(s.db, s.db.monitors[m].payload, i)
    ensures SucceedsOnlyOnGreen(s, Action.ObserveMonitor(m, now, true), t)
  {
  }

  lemma NothingIsNew(s: Sys, a: Action, t: Sys)
    requires NothingNew(s, t)
    ensures SucceedsOnlyOnGreen(s, a, t)
  {
  }

  lemma ObservedRow(db: Db, m: MonitorId, now: Instant) returns (i: int)
    requires L.CanObserveMonitor(db, m, now) && db.monitors[m].payload.id == m
    ensures MonitorRules.Observable(db, m, now, i)
    ensures var after := L.ObserveMonitor(db, m, now, true).monitors;
            && m in after && after == db.monitors[m := after[m]]
            && M.SameTarget(db.monitors[m].payload, after[m].payload)
            && (after[m].payload.state.Succeeded? <==> OnGreen(db, db.monitors[m].payload, i))
  {
    MonitorRules.ObservationIsRuled(db, m, now);
    i :| MonitorRules.Observable(db, m, now, i);
    assert MonitorRules.Ruled(db, L.ObserveMonitor(db, m, now, true), m, now, i);
  }

  lemma UnsavedKeeps(db: Db, m: MonitorId, now: Instant)
    requires L.CanObserveMonitor(db, m, now)
    ensures SameMonitors(db, L.ObserveMonitor(db, m, now, false))
  {
  }

  lemma SavedRow(db: Db, next: M.Monitor)
    ensures var after := SaveMonitor(db, next).monitors;
            next.id in after && after[next.id].payload == next && after == db.monitors[next.id := after[next.id]]
  {
  }

  lemma WakingSucceedsNothing(s: Sys, id: MonitorId, now: Instant)
    requires Holds(Monitors, s)
    ensures NothingNew(s, DoWakeMonitor(s, id, now))
  {
    if id in s.db.monitors {
      assert MonitorRowInv(s.db.tasks, id, s.db.monitors[id]);
      SavedRow(s.db, M.Woken(s.db.monitors[id].payload, now));
    }
  }

  lemma CancellingSucceedsNothing(s: Sys, id: MonitorId, now: Instant)
    requires Holds(Monitors, s)
    ensures NothingNew(s, DoCancelMonitor(s, id, now))
  {
    if id in s.db.monitors {
      assert MonitorRowInv(s.db.tasks, id, s.db.monitors[id]);
      SavedRow(s.db, M.CancelledBy(s.db.monitors[id].payload, now));
    }
  }

  lemma StartingSucceedsNothing(s: Sys, id: MonitorId, request: L.MonitorStartRequest, now: Instant)
    ensures NothingNew(s, DoStartMonitor(s, id, request, now))
  {
    if id !in s.db.monitors && L.CanStartMonitor(s.db, request, now) {
      MonitorRules.StartLeaves(s.db, id, request, now);
    }
  }

  lemma IngestingSucceedsNothing(s: Sys, webhook: Webhook, now: Instant)
    ensures NothingNew(s, DoIngestWebhook(s, webhook, now))
  {
  }

  ghost predicate NothingNew(s: Sys, t: Sys) {
    forall m :: HasSucceeded(t, m) ==> m in s.db.monitors && t.db.monitors[m].payload == s.db.monitors[m].payload
  }

  lemma WakeStep(s: Sys, id: MonitorId, now: Instant)
    requires Holds(Monitors, s)
    ensures NothingNew(s, Apply(s, Action.WakeMonitor(id, now)))
  {
    WakingSucceedsNothing(s, id, now);
  }

  lemma CancelStep(s: Sys, id: MonitorId, now: Instant)
    requires Holds(Monitors, s)
    ensures NothingNew(s, Apply(s, Action.CancelMonitor(id, now)))
  {
    CancellingSucceedsNothing(s, id, now);
  }

  lemma StartStep(s: Sys, id: MonitorId, request: L.MonitorStartRequest, now: Instant)
    ensures NothingNew(s, Apply(s, Action.StartMonitor(id, request, now)))
  {
    StartingSucceedsNothing(s, id, request, now);
  }

  lemma IngestStep(s: Sys, webhook: Webhook, now: Instant)
    ensures NothingNew(s, Apply(s, Action.IngestWebhook(webhook, now)))
  {
    IngestingSucceedsNothing(s, webhook, now);
  }

  lemma OtherMonitorStepsSucceedNothing(s: Sys, a: Action)
    requires Holds(Monitors, s) && (a.StartMonitor? || a.WakeMonitor? || a.CancelMonitor? || a.IngestWebhook?)
    ensures NothingNew(s, Apply(s, a))
  {
    if a.StartMonitor? {
      StartStep(s, a.monitorId, a.request, a.now);
    } else if a.WakeMonitor? {
      WakeStep(s, a.monitorId, a.now);
    } else if a.CancelMonitor? {
      CancelStep(s, a.monitorId, a.now);
    } else {
      IngestStep(s, a.webhook, a.now);
    }
  }

  // ----- Steps that write no monitor -----

  predicate SameMonitors(before: Db, after: Db) {
    after == after.(monitors := before.monitors)
  }

  lemma SavingKeeps(db: Db, id: TaskId, versions: seq<Task>)
    ensures SameMonitors(db, SaveVersions(db, id, versions))
  {
  }

  lemma FailedMergeKeeps(db: Db, key: Key, task: Task)
    requires key in db.deliveries
    ensures SameMonitors(db, CompleteFailedMerge(db, key, task))
  {
  }

  lemma FailureKeeps(db: Db, preview: D.DeliveryPreview, key: Key, now: Instant)
    requires preview.taskId in db.tasks && key in db.deliveries
    ensures SameMonitors(db, D.CompleteFailed(db, preview, key, now))
  {
    FailedMergeKeeps(db, key, Moved(db.tasks[preview.taskId], AwaitingMergeApproval, now));
  }

  lemma ClaimKeeps(db: Db, key: Key, event: Option<Task>, now: Instant)
    ensures SameMonitors(db, Tables.ClaimDelivery(db, key, event, now))
  {
  }

  lemma AuthorizationKeeps(db: Db, preview: D.DeliveryPreview, id: ApprovalId, off: bool, now: Instant, head: Option<Sha>)
    ensures var r := D.AuthorizeExecution(db, preview, id, off, now, head); r.Ok? ==> SameMonitors(db, r.value)
  {
    if D.AuthorizeExecution(db, preview, id, off, now, head).Ok? {
      ClaimKeeps(db, preview.action.IdempotencySha256(), D.ClaimEvent(db, preview, now), now);
    }
  }

  lemma ReconcileKeeps(db: Db, id: TaskId, snapshot: Tables.Snapshot, ambiguous: Option<Key>, now: Instant)
    requires ambiguous.Some? ==> ambiguous.value in db.deliveries
    ensures var r := D.Reconcile(db, id, snapshot, ambiguous, now); r.Ok? ==> SameMonitors(db, r.value)
  {
    ReconcileRules.ReconciledExactly(db, id, snapshot, ambiguous, now);
  }

  lemma FailDeliveryKeepsMonitors(s: Sys, h: HandlerId, now: Instant)
    ensures SameMonitors(s.db, DoFailDelivery(s, h, now).db)
  {
    if CanComplete(s, h) { FailureKeeps(s.db, s.execs[h].preview, s.execs[h].key, now); }
  }

  lemma SucceedDeliveryKeepsMonitors(s: Sys, h: HandlerId, merged: bool, now: Instant)
    ensures SameMonitors(s.db, DoSucceedDelivery(s, h, merged, now).db)
  {
    if CanComplete(s, h) { DeliveryRules.SuccessExactly(s.db, s.execs[h].preview, s.execs[h].key, merged, now); }
  }

  lemma LoseDeliveryKeepsMonitors(s: Sys, h: HandlerId)
    ensures SameMonitors(s.db, DoLoseDelivery(s, h).db)
  {
  }

  lemma ClaimDeliveryKeepsMonitors(s: Sys, h: HandlerId, preview: D.DeliveryPreview, id: ApprovalId, off: bool, now: Instant,
                                   head: Option<Sha>)
    ensures SameMonitors(s.db, DoClaimDelivery(s, h, preview, id, off, now, head).db)
  {
    AuthorizationKeeps(s.db, preview, id, off, now, head);
  }

  lemma ReconcileKeepsMonitors(s: Sys, id: TaskId, snapshot: Tables.Snapshot, ambiguous: Option<Key>, now: Instant)
    ensures SameMonitors(s.db, DoReconcile(s, id, snapshot, ambiguous, now).db)
  {
    if IsAmbiguousChoice(s.db.deliveries, id, ambiguous) {
      ReconcileKeeps(Synced(s.db, snapshot, now), id, snapshot, ambiguous, now);
    }
  }

  lemma ApproveDeliveryKeepsMonitors(s: Sys, preview: D.DeliveryPreview, id: ApprovalId, who: string, now: Instant,
                                     head: Option<Sha>)
    ensures SameMonitors(s.db, DoApproveDelivery(s, preview, id, who, now, head).db)
  {
  }

  lemma BeginVerificationKeepsMonitors(s: Sys, run: RunId, id: TaskId, now: Instant, written: nat)
    ensures SameMonitors(s.db, DoBeginVerification(s, run, id, now, written).db)
  {
    if run !in s.runs && L.CanVerify(s.db, id) && written <= |L.VerifyEntryPath(s.db.tasks[id].state)| {
      assert SameMonitors(s.db, L.VerifyEntry(s.db, id, now, written));
    }
  }

  lemma CommitVerificationKeepsMonitors(s: Sys, run: RunId, checkpoint: CheckpointId, now: Instant, written: nat)
    ensures SameMonitors(s.db, DoCommitVerification(s, run, checkpoint, now, written).db)
  {
    if CanCommit(s, run, written) {
      assert SameMonitors(s.db, L.VerifyCommit(s.db, s.runs[run].task, checkpoint, now, written));
    }
  }

  lemma ApprovePreparationKeepsMonitors(s: Sys, preview: L.PreparationPreview, id: ApprovalId, who: string, now: Instant)
    ensures SameMonitors(s.db, DoApprovePreparation(s, preview, id, who, now).db)
  {
  }

  lemma ClaimPreparationKeepsMonitors(s: Sys, h: HandlerId, preview: L.PreparationPreview, id: ApprovalId, off: bool,
                                      now: Instant, at: Instant)
    ensures SameMonitors(s.db, DoClaimPreparation(s, h, preview, id, off, now, at).db)
  {
  }

  lemma ReadPreparationKeepsMonitors(s: Sys, h: HandlerId)
    ensures SameMonitors(s.db, DoReadPreparation(s, h).db)
  {
  }

  lemma SavePreparationKeepsMonitors(s: Sys, h: HandlerId, checkpoint: CheckpointId, now: Instant)
    ensures SameMonitors(s.db, DoSavePreparation(s, h, checkpoint, now).db)
  {
    if h in s.preps && s.preps[h].phase.Read? {
      var task := L.PreparedTask(s.preps[h].phase.task, s.preps[h].preview, checkpoint, now);
      SavingKeeps(s.db, task.id, [task]);
    }
  }

  lemma CommitPlanKeepsMonitors(s: Sys, h: HandlerId, draft: TaskContractDraft, now: Instant, written: nat)
    ensures SameMonitors(s.db, DoCommitPlan(s, h, draft, now, written).db)
  {
  }

  lemma TaskStepsKeepMonitors(s: Sys, a: Action)
    requires a.IsTaskAction()
    ensures SameMonitors(s.db, Apply(s, a).db)
  {
    if a.CommitPlan? { CommitPlanKeepsMonitors(s, a.handler, a.draft, a.now, a.written); }
  }

  lemma PreparationStepsKeepMonitors(s: Sys, a: Action)
    requires a.IsPreparationAction()
    ensures SameMonitors(s.db, Apply(s, a).db)
  {
    match a
    case ApprovePreparation(preview, id, who, now) => ApprovePreparationKeepsMonitors(s, preview, id, who, now);
    case ClaimPreparation(h, preview, id, off, now, at) => ClaimPreparationKeepsMonitors(s, h, preview, id, off, now, at);
    case ReadPreparation(h) => ReadPreparationKeepsMonitors(s, h);
    case SavePreparation(h, checkpoint, now) => SavePreparationKeepsMonitors(s, h, checkpoint, now);
    case _ =>
  }

  lemma VerificationStepsKeepMonitors(s: Sys, a: Action)
    requires a.IsVerificationAction()
    ensures SameMonitors(s.db, Apply(s, a).db)
  {
    match a
    case BeginVerification(run, id, now, written) => BeginVerificationKeepsMonitors(s, run, id, now, written);
    case CommitVerification(run, checkpoint, now, written) => CommitVerificationKeepsMonitors(s, run, checkpoint, now, written);
    case _ =>
  }

  lemma SucceedStep(s: Sys, h: HandlerId, merged: bool, now: Instant)
    ensures SameMonitors(s.db, Apply(s, Action.SucceedDelivery(h, merged, now)).db)
  {
    SucceedDeliveryKeepsMonitors(s, h, merged, now);
  }

  lemma FailStep(s: Sys, h: HandlerId, now: Instant)
    ensures SameMonitors(s.db, Apply(s, Action.FailDelivery(h, now)).db)
  {
    FailDeliveryKeepsMonitors(s, h, now);
  }

  lemma LoseStep(s: Sys, h: HandlerId)
    ensures SameMonitors(s.db, Apply(s, Action.LoseDelivery(h)).db)
  {
    LoseDeliveryKeepsMonitors(s, h);
  }

  lemma ReconcileStep(s: Sys, id: TaskId, snapshot: Tables.Snapshot, ambiguous: Option<Key>, now: Instant)
    ensures SameMonitors(s.db, Apply(s, Action.Reconcile(id, snapshot, ambiguous, now)).db)
  {
    ReconcileKeepsMonitors(s, id, snapshot, ambiguous, now);
  }

  lemma DeliveryStepsKeepMonitors(s: Sys, a: Action)
    requires a.IsDeliveryAction()
    ensures SameMonitors(s.db, Apply(s, a).db)
  {
    match a
    case ApproveDelivery(preview, id, who, now, head) => ApproveDeliveryKeepsMonitors(s, preview, id, who, now, head);
    case ClaimDelivery(h, preview, id, off, now, head) => ClaimDeliveryKeepsMonitors(s, h, preview, id, off, now, head);
    case SucceedDelivery(h, merged, now) => SucceedStep(s, h, merged, now);
    case FailDelivery(h, now) => FailStep(s, h, now);
    case LoseDelivery(h) => LoseStep(s, h);
    case Reconcile(id, snapshot, ambiguous, now) => ReconcileStep(s, id, snapshot, ambiguous, now);
  }

  lemma StepSucceedsOnlyOnGreen(s: Sys, a: Action)
    requires Inv(s)
    ensures SucceedsOnlyOnGreen(s, a, Apply(s, a))
  {
    assert Holds(Monitors, s);
    if a.IsTaskAction() {
      TaskStepsKeepMonitors(s, a);
    } else if a.IsPreparationAction() {
      PreparationStepsKeepMonitors(s, a);
    } else if a.IsVerificationAction() {
      VerificationStepsKeepMonitors(s, a);
    } else if a.IsDeliveryAction() {
      DeliveryStepsKeepMonitors(s, a);
    } else if a.ObserveMonitor? {
      ObservingSucceedsOnGreen(s, a.monitorId, a.now, a.saved);
    } else if !a.Restart? {
      OtherMonitorStepsSucceedNothing(s, a);
    }
  }

  /** Every monitor that ever succeeded did so at a step of the run that saw green at its own SHAs. */
  lemma {:induction false} SuccessSawGreen(actions: seq<Action>, m: MonitorId) returns (n: nat)
    requires HasSucceeded(Run(actions), m)
    ensures n < |actions| && SeesGreen(Run(actions[..n]), actions[n], m)
    ensures M.SameTarget(Run(actions[..n]).db.monitors[m].payload, Run(actions).db.monitors[m].payload)
  {
    var front := actions[..|actions| - 1];
    RunKeepsInv(front);
    StepSucceedsOnlyOnGreen(Run(front), Last(actions));
    if HasSucceeded(Run(front), m) {
      n := SuccessSawGreen(front, m);
      assert front[..n] == actions[..n];
    } else {
      n := |actions| - 1;
    }
  }

  /** A task at the merge gate, or merging, owes it to a step of the run that observed one of its monitors
      on a pull request which the stored snapshot showed passing, approved, without conflicts and mergeable,
      at exactly the monitor's head and base SHAs. */
  lemma MergeGateSawGreen(actions: seq<Action>, id: TaskId) returns (n: nat, m: MonitorId)
    requires id in Run(actions).db.tasks && AtMergeGate(Run(actions).db.tasks[id].state)
    ensures n < |actions| && SeesGreen(Run(actions[..n]), actions[n], m)
    ensures Run(actions[..n]).db.monitors[m].payload.taskId == id
    ensures OpenedBy(Run(actions).db.monitors, id, m)
  {
    RunKeepsInv(actions);
    assert Holds(Gates, Run(actions));
    m := Run(actions).mergeGate[id];
    assert OpenedBy(Run(actions).db.monitors, id, m);
    n := SuccessSawGreen(actions, m);
  }
}
