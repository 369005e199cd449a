/** What an operator can permit, and which class of approval each capability needs. */
module Capabilities {

  datatype Capability =
    | ReadRepository | PrepareWorktree | ModifyWorktree | RunKnownCommand | AccessNetwork
    | InstallDependency | CreateBranch | PushBranch | CreatePullRequest | PostComment | PostReview
    | ResolveThread | CreateCheckRun | UpdatePullRequestBranch | ReadyPullRequest | ClosePullRequest
    | CloseIssue | ModifyWorkflow | EnqueuePullRequest | MergePullRequest | AdministratorBypass

  datatype ApprovalClass = Preparation | CodexRuntime | LocalCapability | GitHubDelivery | Merge

  predicate IsMergeCapability(capability: Capability) {
    capability.MergePullRequest? || capability.EnqueuePullRequest?
  }

  predicate IsDeliveryCapability(capability: Capability) {
    capability in {CreateBranch, PushBranch, CreatePullRequest, PostComment, PostReview, ResolveThread,
                   CreateCheckRun, UpdatePullRequestBranch, ReadyPullRequest, ClosePullRequest, CloseIssue}
  }

  function RequiredClass(capability: Capability): ApprovalClass {
    match capability
    case PrepareWorktree => Preparation
    case MergePullRequest => Merge
    case EnqueuePullRequest => Merge
    case AccessNetwork => LocalCapability
    case InstallDependency => LocalCapability
    case ModifyWorkflow => LocalCapability
    case AdministratorBypass => LocalCapability
    case ReadRepository => CodexRuntime
    case ModifyWorktree => CodexRuntime
    case RunKnownCommand => CodexRuntime
    case _ => GitHubDelivery
  }

  predicate ClassSupports(class_: ApprovalClass, capability: Capability) {
    match class_
    case Preparation => capability.PrepareWorktree?
    case CodexRuntime => capability.ModifyWorktree? || capability.RunKnownCommand?
    case LocalCapability => capability.AccessNetwork? || capability.InstallDependency? || capability.ModifyWorkflow?
    case GitHubDelivery => IsDeliveryCapability(capability)
    case Merge => IsMergeCapability(capability)
  }

  /** The class that policy demands is the only class that can be granted: a delivery approval never merges. */
  lemma RequiredClassIsTheOnlySupportingClass(class_: ApprovalClass, capability: Capability)
    requires !capability.ReadRepository? && !capability.AdministratorBypass?
    ensures ClassSupports(class_, capability) <==> class_ == RequiredClass(capability)
  {
  }
}

/** Typed remote mutations. Values here have passed the field validators of their constructors. */
module GitHubActions {
  import opened Base
  import opened Capabilities

  datatype ReviewEvent = Approve | RequestChanges | Comment | Pending
  datatype MergeMethod = Merge | Squash | Rebase
  datatype InlineReviewComment = InlineReviewComment(path: string, line: nat, body: string)

  datatype GitHubAction =
    | CreateBranch(branch: string, fromSha: Sha)
    | PushIntent(branch: string, headSha: Sha)
    | PostComment(issueNumber: nat, body: string)
    | Review(pullRequestNumber: nat, expectedHeadSha: Sha, event: ReviewEvent, body: string,
             inlineComments: seq<InlineReviewComment>)
    | ResolveReviewThread(pullRequestNumber: nat, threadId: string, expectedHeadSha: Sha)
    | CheckRun(name: string, headSha: Sha, status: string, conclusion: Option<string>)
    | DraftPullRequest(title: string, head: string, base: string, body: string, expectedHeadSha: Sha,
                       expectedBaseSha: Sha)
    | UpdatePullRequestBranch(pullRequestNumber: nat, expectedHeadSha: Sha)
    | ReadyPullRequest(pullRequestNumber: nat, expectedHeadSha: Sha)
    | ClosePullRequest(pullRequestNumber: nat, expectedHeadSha: Sha)
    | CloseIssue(issueNumber: nat)
    | EnqueuePullRequest(pullRequestNumber: nat, expectedHeadSha: Sha)
    | MergePullRequest(pullRequestNumber: nat, expectedHeadSha: Sha, mergeMethod: MergeMethod)
  {
    function ActionCapability(): Capability {
      match this
      case CreateBranch(_, _) => Capability.CreateBranch
      case PushIntent(_, _) => Capability.PushBranch
      case PostComment(_, _) => Capability.PostComment
      case Review(_, _, _, _, _) => Capability.PostReview
      case ResolveReviewThread(_, _, _) => Capability.ResolveThread
      case CheckRun(_, _, _, _) => Capability.CreateCheckRun
      case DraftPullRequest(_, _, _, _, _, _) => Capability.CreatePullRequest
      case UpdatePullRequestBranch(_, _) => Capability.UpdatePullRequestBranch
      case ReadyPullRequest(_, _) => Capability.ReadyPullRequest
      case ClosePullRequest(_, _) => Capability.ClosePullRequest
      case CloseIssue(_) => Capability.CloseIssue
      case EnqueuePullRequest(_, _) => Capability.EnqueuePullRequest
      case MergePullRequest(_, _, _) => Capability.MergePullRequest
    }

    /** The item the action addresses; comments and issue closures count with their issue number. */
    function PullRequestNumber(): Option<nat> {
      if PostComment? || CloseIssue? then Some(issueNumber)
      else if CreateBranch? || PushIntent? || CheckRun? || DraftPullRequest? then None
      else Some(pullRequestNumber)
    }

    function Branch(): Option<string> {
      if CreateBranch? || PushIntent? then Some(branch)
      else if DraftPullRequest? then Some(head)
      else None
    }

    function ExpectedHeadSha(): Option<Sha> {
      if CreateBranch? || PushIntent? || PostComment? || CheckRun? || CloseIssue? then None
      else Some(expectedHeadSha)
    }

    function ExpectedBaseSha(): Option<Sha> {
      if CreateBranch? then Some(fromSha)
      else if DraftPullRequest? then Some(expectedBaseSha)
      else None
    }
  }

  datatype RemoteIdentity = RemoteIdentity(repositoryId: nat, installationId: nat, repositoryFullName: string)

  datatype RemotePrecondition =
    RemotePrecondition(expectedHeadSha: Option<Sha>, expectedBaseSha: Option<Sha>, snapshotGeneration: nat)

  /** The idempotency digest of a preview. A digest is modelled as the value that was digested,
      so two keys are equal exactly when remote, action and precondition all are. */
  datatype Key = Key(remote: RemoteIdentity, action: GitHubAction, precondition: RemotePrecondition)

  /** A preview as it is after decoding: its two digests are always the recomputed ones. */
  datatype GitHubActionPreview =
    GitHubActionPreview(remote: RemoteIdentity, action: GitHubAction, precondition: RemotePrecondition)
  {
    function IdempotencySha256(): Key { Key(remote, action, precondition) }

    function ActionCapability(): Capability { action.ActionCapability() }
  }

  predicate IsMergeKey(key: Key) {
    IsMergeCapability(key.action.ActionCapability())
  }
}
