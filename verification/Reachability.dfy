/** The invariant holds in every state the engine can reach. */
module Reachability {
  import opened Base
  import opened Tables
  import opened Protocol
  import opened Invariant
  import opened StepProofs
  import opened DeliveryProofs
  import L = LifecycleSpec

  lemma InitialInv()
    ensures Inv(INITIAL)
  {
  }

  lemma BeginPlanKeepsInv(s: Sys, handler: HandlerId, taskId: TaskId)
    requires Inv(s)
    ensures Inv(DoBeginPlan(s, handler, taskId))
  {
    if handler !in s.plans && L.CanPlan(s.db, taskId) {
      assert Holds(Plans, s);
      PlansKeepInv(s, s.plans[handler := L.PlanRead(s.db, taskId)]);
    }
  }

  lemma TaskStepKeepsInv(s: Sys, a: Action)
    requires Inv(s)
    requires a.IsTaskAction()
    ensures Inv(Apply(s, a))
  {
    match a
    case CreateTask(id, title, path, now) => CreateTaskKeepsInv(s, id, title, path, now);
    case ConvertTask(id, title, path, source, binding, now) => ConvertTaskKeepsInv(s, id, title, path, source, binding, now);
    case BindRepository(binding) => BindRepositoryKeepsInv(s, binding);
    case SyncSnapshot(snapshot, now) => SyncKeepsInv(s, snapshot, now);
    case BeginPlan(h, id) => BeginPlanKeepsInv(s, h, id);
    case CommitPlan(h, draft, now, written) => CommitPlanKeepsInv(s, h, draft, now, written);
  }

  lemma PreparationStepKeepsInv(s: Sys, a: Action)
    requires Inv(s)
    requires a.IsPreparationAction()
    ensures Inv(Apply(s, a))
  {
    match a
    case ApprovePreparation(preview, id, who, now) => ApprovePreparationKeepsInv(s, preview, id, who, now);
    case ClaimPreparation(h, preview, id, off, now, at) => ClaimPreparationKeepsInv(s, h, preview, id, off, now, at);
    case ReadPreparation(h) => ReadPreparationKeepsInv(s, h);
    case AbandonPreparation(h) => AbandonPreparationKeepsInv(s, h);
    case SavePreparation(h, checkpoint, now) => SavePreparationKeepsInv(s, h, checkpoint, now);
    case ReleasePreparation(h) => ReleasePreparationKeepsInv(s, h);
  }

  lemma VerificationStepKeepsInv(s: Sys, a: Action)
    requires Inv(s)
    requires a.IsVerificationAction()
    ensures Inv(Apply(s, a))
  {
    match a
    case BeginVerification(run, id, now, written) => BeginVerificationKeepsInv(s, run, id, now, written);
    case RunVerificationCommand(run, success) => RunCommandKeepsInv(s, run, success);
    case AbandonVerification(run) => AbandonVerificationKeepsInv(s, run);
    case CommitVerification(run, checkpoint, now, written) => CommitVerificationKeepsInv(s, run, checkpoint, now, written);
  }

  lemma DeliveryStepKeepsInv(s: Sys, a: Action)
    requires Inv(s)
    requires a.IsDeliveryAction()
    ensures Inv(Apply(s, a))
  {
    match a
    case ApproveDelivery(preview, id, who, now, head) => ApproveDeliveryKeepsInv(s, preview, id, who, now, head);
    case ClaimDelivery(h, preview, id, off, now, head) => ClaimDeliveryKeepsInv(s, h, preview, id, off, now, head);
    case SucceedDelivery(h, merged, now) => SucceedDeliveryKeepsInv(s, h, merged, now);
    case FailDelivery(h, now) => FailDeliveryKeepsInv(s, h, now);
    case LoseDelivery(h) => LoseDeliveryKeepsInv(s, h);
    case Reconcile(id, snapshot, ambiguous, now) => ReconcileKeepsInv(s, id, snapshot, ambiguous, now);
  }

  lemma MonitorStepKeepsInv(s: Sys, a: Action)
    requires Inv(s)
    requires !a.IsTaskAction() && !a.IsPreparationAction() && !a.IsVerificationAction() && !a.IsDeliveryAction()
    requires !a.Restart?
    ensures Inv(Apply(s, a))
  {
    match a
    case StartMonitor(id, request, now) => StartMonitorKeepsInv(s, id, request, now);
    case ObserveMonitor(id, now, saved) => ObserveMonitorKeepsInv(s, id, now, saved);
    case WakeMonitor(id, now) => WakeMonitorKeepsInv(s, id, now);
    case CancelMonitor(id, now) => CancelMonitorKeepsInv(s, id, now);
    case IngestWebhook(webhook, now) => IngestWebhookKeepsInv(s, webhook, now);
  }

  lemma StepKeepsInv(s: Sys, a: Action)
    requires Inv(s)
    ensures Inv(Apply(s, a))
  {
    if a.IsTaskAction() {
      TaskStepKeepsInv(s, a);
    } else if a.IsPreparationAction() {
      PreparationStepKeepsInv(s, a);
    } else if a.IsVerificationAction() {
      VerificationStepKeepsInv(s, a);
    } else if a.IsDeliveryAction() {
      DeliveryStepKeepsInv(s, a);
    } else if a.Restart? {
      RestartKeepsInv(s);
    } else {
      MonitorStepKeepsInv(s, a);
    }
  }

  lemma {:induction false} RunKeepsInv(actions: seq<Action>)
    ensures Inv(Run(actions))
  {
    if actions == [] {
      InitialInv();
    } else {
      RunKeepsInv(actions[..|actions| - 1]);
      StepKeepsInv(Run(actions[..|actions| - 1]), Last(actions));
    }
  }

  /** A state at the end of some run. */
  ghost predicate Reachable(s: Sys) {
    exists actions :: s == Run(actions)
  }

  lemma ReachableInv(s: Sys)
    requires Reachable(s)
    ensures Inv(s)
  {
    var actions :| s == Run(actions);
    RunKeepsInv(actions);
  }
}
