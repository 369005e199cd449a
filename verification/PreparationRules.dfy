/** What a preparation is made from and when it may start, said about the tables themselves. */
module PreparationRules {
  import opened Base
  import opened Sources
  import opened Domain
  import opened Contract
  import opened Capabilities
  import opened Policy
  import opened Tables
  import L = LifecycleSpec

  /** The task waits for its preparation, its contract and its binding belong to it, a SHA to start from is
      pinned and a repository to start in is known. */
  predicate IsPreparable(db: Db, taskId: TaskId) {
    && taskId in db.tasks && taskId in db.contracts
    && var task, contract := db.tasks[taskId], db.contracts[taskId];
       && task.state.AwaitingPreparationApproval?
       && task.bindingId == Some(contract.bindingId) && contract.bindingId in db.bindings && contract.taskId == task.id
       && (contract.headSha != None || contract.baseSha != None)
       && (db.bindings[contract.bindingId].managedClone != None || db.bindings[contract.bindingId].userCheckout != None)
  }

  /** The head before the base, the managed clone before the user's checkout, and a worktree and branch of
      the task's own; the fingerprint covers all of it with the contract and the task's last change. */
  predicate IsPreparationOf(db: Db, preview: L.PreparationPreview)
    requires IsPreparable(db, preview.taskId)
  {
    var task, contract := db.tasks[preview.taskId], db.contracts[preview.taskId];
    var binding := db.bindings[contract.bindingId];
    && preview.bindingId == contract.bindingId && preview.repositoryFullName == binding.fullName
    && preview.contract == contract
    && Some(preview.sourceSha) == (if contract.headSha != None then contract.headSha else contract.baseSha)
    && Some(preview.repositoryPath) == (if binding.managedClone != None then binding.managedClone else binding.userCheckout)
    && preview.branch == "patchwright/" + IdText(task.id)
    && preview.worktreePath == binding.worktreeRoot + "/" + IdText(task.id)
    && preview.invalidationGeneration ==
         (if task.updatedAt < 0 then -(task.updatedAt / 1000) else task.updatedAt / 1000)
    && preview.fingerprint ==
         ActionFingerprint(preview.taskId, binding.githubRepositoryId, binding.fullName, PrepareWorktree, None,
                           Some(preview.branch), Some(preview.sourceSha), None,
                           PreparationPayload(preview.taskId, preview.bindingId, preview.repositoryFullName,
                                              preview.repositoryPath, preview.sourceSha, preview.worktreePath,
                                              preview.branch, preview.invalidationGeneration, contract),
                           PreparationPolicyV1, contract.instructionDigests, preview.invalidationGeneration)
  }

  predicate IsCurrent(db: Db, preview: L.PreparationPreview) {
    IsPreparable(db, preview.taskId) && IsPreparationOf(db, preview)
  }

  /** A preparation can be previewed exactly of a preparable task, and then in one way only. */
  lemma PreparedExactly(db: Db, taskId: TaskId)
    ensures var r := L.PreviewPreparation(db, taskId);
            && (r.Ok? <==> IsPreparable(db, taskId))
            && (r.Ok? ==> r.value.taskId == taskId && IsPreparationOf(db, r.value))
  {
  }

  lemma CurrentIsFresh(db: Db, preview: L.PreparationPreview)
    ensures IsCurrent(db, preview) <==> L.PreviewPreparation(db, preview.taskId) == Ok(preview)
  {
    PreparedExactly(db, preview.taskId);
  }

  /** Automation is on; a stored, uninvalidated preparation approval of exactly this preparation is inside
      its window; it was never used, and nothing is preparing the task. */
  predicate MayPrepare(db: Db, preview: L.PreparationPreview, approvalId: ApprovalId, automationDisabled: bool,
                       now: Instant, claimedAt: Instant)
  {
    && !automationDisabled
    && IsCurrent(db, preview)
    && approvalId in db.approvals && !db.approvals[approvalId].invalidated
    && var approval := db.approvals[approvalId].approval;
       && approval.class_.Preparation? && approval.capability.PrepareWorktree?
       && approval.fingerprint == preview.fingerprint
       && approval.approvedAt <= now < approval.expiresAt && claimedAt < approval.expiresAt
       && approvalId !in db.claims
       && forall other :: other in db.claims && db.claims[other].taskId == preview.taskId ==> !db.claims[other].result.Active?
  }

  /** A preparation is authorized exactly then, and only its claim is written. */
  lemma AuthorizedExactly(db: Db, preview: L.PreparationPreview, approvalId: ApprovalId, automationDisabled: bool,
                          now: Instant, claimedAt: Instant)
    ensures var r := L.AuthorizePreparation(db, preview, approvalId, automationDisabled, now, claimedAt);
            && (r.Ok? <==> MayPrepare(db, preview, approvalId, automationDisabled, now, claimedAt))
            && (r.Ok? ==>
                  r.value == db.(claims := db.claims[approvalId := ClaimRow(preview.taskId, preview.fingerprint, Active)]))
  {
    CurrentIsFresh(db, preview);
    RemoteCapabilityAllowedExactly(automationDisabled, PrepareWorktree, preview.fingerprint, LiveApproval(db, approvalId), now);
  }

  // ----- Worktrees and branches do not collide -----

  lemma {:induction false} IdTextDetermines(a: nat, b: nat)
    requires IdText(a) == IdText(b)
    ensures a == b
    decreases a + b
  {
    LastDigit(a);
    LastDigit(b);
    if a >= 10 && b >= 10 {
      assert IdText(a / 10) == IdText(a)[..|IdText(a)| - 1] == IdText(b / 10);
      IdTextDetermines(a / 10, b / 10);
    }
  }

  lemma LastDigit(id: nat)
    ensures |IdText(id)| >= 1 && IdText(id)[|IdText(id)| - 1] == "0123456789"[id % 10]
    ensures id < 10 <==> |IdText(id)| == 1
  {
    if id >= 10 { LastDigit(id / 10); }
  }

  /** No two tasks are ever prepared on the same branch or, under one root, in the same worktree. */
  lemma PreparationsAreDisjoint(db: Db, a: L.PreparationPreview, b: L.PreparationPreview)
    requires IsCurrent(db, a) && IsCurrent(db, b) && db.tasks[a.taskId].id != db.tasks[b.taskId].id
    ensures a.branch != b.branch
    ensures db.bindings[a.bindingId].worktreeRoot == db.bindings[b.bindingId].worktreeRoot ==> a.worktreePath != b.worktreePath
  {
    var x, y := IdText(db.tasks[a.taskId].id), IdText(db.tasks[b.taskId].id);
    if x == y {
      IdTextDetermines(db.tasks[a.taskId].id, db.tasks[b.taskId].id);
    }
    SamePrefix("patchwright/", x, y);
    SamePrefix(db.bindings[a.bindingId].worktreeRoot + "/", x, y);
  }

  lemma SamePrefix(prefix: string, x: string, y: string)
    ensures prefix + x == prefix + y ==> x == y
  {
    assert (prefix + x)[|prefix|..] == x && (prefix + y)[|prefix|..] == y;
  }
}
