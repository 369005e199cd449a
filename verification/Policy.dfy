/** Approvals: one exact fingerprint, one class, one short window. */
module Policy {
  import opened Base
  import opened Capabilities
  import opened GitHubActions
  import opened Contract

  const MAX_APPROVAL_DURATION: int := 30 * NANOS_PER_MINUTE
  const APPROVAL_DURATION: int := 10 * NANOS_PER_MINUTE

  /** What a payload digest was taken over; digests are the digested values themselves. */
  datatype PayloadDigest =
    | ActionPayload(action: GitHubAction)
    | PreparationPayload(taskId: TaskId, bindingId: BindingId, repositoryFullName: string,
                         repositoryPath: string, sourceSha: Sha, worktreePath: string, branch: string,
                         invalidationGeneration: nat, contract: TaskContract)

  datatype PolicyDigest = DeliveryPolicyV1 | PreparationPolicyV1

  /** The capability stands for its wire name; the names are pairwise different. */
  datatype ActionFingerprint = ActionFingerprint(
    taskId: TaskId,
    githubRepositoryId: nat,
    repositoryFullName: string,
    actionKind: Capability,
    pullRequestNumber: Option<nat>,
    branch: Option<string>,
    headSha: Option<Sha>,
    baseSha: Option<Sha>,
    payloadSha256: PayloadDigest,
    policySha256: PolicyDigest,
    instructionSha256: seq<InstructionDigest>,
    invalidationGeneration: nat)

  datatype Approval = Approval(
    id: ApprovalId,
    class_: ApprovalClass,
    capability: Capability,
    fingerprint: ActionFingerprint,
    approvedBy: string,
    approvedAt: Instant,
    expiresAt: Instant)
  {
    predicate IsValidFor(required: ApprovalClass, asked: Capability, exact: ActionFingerprint, now: Instant) {
      class_ == required && capability == asked && fingerprint == exact && approvedAt <= now < expiresAt
    }
  }

  /** Whether these parts make an approval at all; blank approvers are refused. */
  predicate CanApprove(class_: ApprovalClass, capability: Capability, fingerprint: ActionFingerprint,
                       approvedBy: string, approvedAt: Instant, expiresAt: Instant)
  {
    && Trim(approvedBy) != ""
    && approvedAt < expiresAt <= approvedAt + MAX_APPROVAL_DURATION
    && ClassSupports(class_, capability)
    && fingerprint.actionKind == capability
  }

  datatype PolicyDecision = Allowed | ApprovalRequired | Denied

  function Authorize(automationDisabled: bool, capability: Capability, fingerprint: ActionFingerprint,
                     approval: Option<Approval>, now: Instant): PolicyDecision
  {
    if capability.AdministratorBypass? then Denied
    else if fingerprint.actionKind != capability then Denied
    else if automationDisabled && !capability.ReadRepository? then Denied
    else if capability in {ReadRepository, ModifyWorktree, RunKnownCommand} then Allowed
    else if approval.Some? && approval.value.IsValidFor(RequiredClass(capability), capability, fingerprint, now) then Allowed
    else ApprovalRequired
  }

  /** A capability that changes anything remote is allowed exactly when automation is on and the
      approval names that very fingerprint, the required class, and a window that contains now. */
  lemma RemoteCapabilityAllowedExactly(automationDisabled: bool, capability: Capability,
                                       fingerprint: ActionFingerprint, approval: Option<Approval>, now: Instant)
    requires IsDeliveryCapability(capability) || IsMergeCapability(capability) || capability.PrepareWorktree?
    ensures Authorize(automationDisabled, capability, fingerprint, approval, now) == Allowed <==>
              && !automationDisabled
              && fingerprint.actionKind == capability
              && approval.Some?
              && approval.value.IsValidFor(RequiredClass(capability), capability, fingerprint, now)
  {
  }

  /** Everything else: a bypass is denied always, a capability the fingerprint does not name is denied, the
      kill switch leaves reading only, work inside the worktree needs no approval, and the network,
      installations and workflow changes need one of the local class for exactly that fingerprint. */
  lemma LocalCapabilityDecisions(automationDisabled: bool, capability: Capability, fingerprint: ActionFingerprint,
                                 approval: Option<Approval>, now: Instant)
    requires !IsDeliveryCapability(capability) && !IsMergeCapability(capability) && !capability.PrepareWorktree?
    ensures var decision := Authorize(automationDisabled, capability, fingerprint, approval, now);
            if capability == AdministratorBypass || fingerprint.actionKind != capability then decision == Denied
            else if capability == ReadRepository then decision == Allowed
            else if automationDisabled then decision == Denied
            else if capability == ModifyWorktree || capability == RunKnownCommand then decision == Allowed
            else
              && (capability == AccessNetwork || capability == InstallDependency || capability == ModifyWorkflow)
              && decision == if approval.Some? && approval.value.class_ == LocalCapability
                                && approval.value.capability == capability && approval.value.fingerprint == fingerprint
                                && approval.value.approvedAt <= now < approval.value.expiresAt
                             then Allowed else ApprovalRequired
  {
  }
}
