/** The recorded origin of a task: a local request, or one captured GitHub issue or pull request. */
module Sources {
  import opened Base

  datatype TaskSource =
    | LocalRequest
    | GitHubIssue(repositoryId: nat, repositoryFullName: string, number: nat, snapshotAt: Instant)
    | GitHubPullRequest(repositoryId: nat, repositoryFullName: string, number: nat, snapshotAt: Instant,
                        baseRef: string, baseSha: Sha, headRef: string, headSha: Sha)
  {
    function RepositoryId(): Option<nat> {
      if LocalRequest? then None else Some(repositoryId)
    }

    function RepositoryFullName(): Option<string> {
      if LocalRequest? then None else Some(repositoryFullName)
    }

    function ItemNumber(): Option<nat> {
      if LocalRequest? then None else Some(number)
    }

    function HeadSha(): Option<Sha> {
      if GitHubPullRequest? then Some(headSha) else None
    }

    function BaseSha(): Option<Sha> {
      if GitHubPullRequest? then Some(baseSha) else None
    }
  }
}

/** Repository bindings and the typed task contract that planning derives from a source. */
module Contract {
  import opened Base
  import opened Sources
  import opened Capabilities

  const CURRENT_TASK_CONTRACT_VERSION: nat := 2

  datatype RepositoryBinding = RepositoryBinding(
    id: BindingId,
    githubRepositoryId: nat,
    fullName: string,
    installationId: nat,
    defaultBranch: string,
    userCheckout: Option<string>,
    managedClone: Option<string>,
    worktreeRoot: string,
    defaultBranchSha: Option<Sha>)

  datatype InstructionDigest = InstructionDigest(source: string, sha256: string, precedence: nat)

  datatype VerificationCommand = VerificationCommand(program: string, args: seq<string>)

  datatype TaskContractDraft = TaskContractDraft(
    taskId: TaskId,
    source: TaskSource,
    bindingId: BindingId,
    goal: string,
    acceptanceCriteria: seq<string>,
    baseSha: Option<Sha>,
    headSha: Option<Sha>,
    instructionDigests: seq<InstructionDigest>,
    verificationCommands: seq<VerificationCommand>,
    requiredCapabilities: seq<Capability>,
    dependencies: seq<TaskId>)

  datatype TaskContract = TaskContract(
    version: nat,
    taskId: TaskId,
    source: TaskSource,
    bindingId: BindingId,
    goal: string,
    acceptanceCriteria: seq<string>,
    baseSha: Option<Sha>,
    headSha: Option<Sha>,
    instructionDigests: seq<InstructionDigest>,
    verificationCommands: seq<VerificationCommand>,
    requiredCapabilities: seq<Capability>,
    dependencies: seq<TaskId>)

  datatype ContractError =
    | InvalidGoal | InvalidAcceptanceCriteria | InvalidVerificationCommands | InvalidPullRequestShaBinding
    | InvalidDependencies

  predicate IsBlank(c: char) { c == ' ' || c == '\t' || c == '\n' || c == '\r' }

  /** A text without its leading and trailing blanks. */
  function Trim(text: string): string {
    if text == "" then ""
    else if IsBlank(text[0]) then Trim(text[1..])
    else if IsBlank(text[|text| - 1]) then Trim(text[..|text| - 1])
    else text
  }

  predicate AllBlank(text: string) {
    forall i :: 0 <= i < |text| ==> IsBlank(text[i])
  }

  /** Trimming takes blanks off both ends, all of them, and nothing else. */
  lemma {:induction false} TrimTakesBlanks(text: string) returns (before: string, after: string)
    ensures text == before + Trim(text) + after && AllBlank(before) && AllBlank(after)
    ensures Trim(text) != "" ==> !IsBlank(Trim(text)[0]) && !IsBlank(Trim(text)[|Trim(text)| - 1])
    decreases |text|
  {
    if text != "" && IsBlank(text[0]) {
      before, after := TrimTakesBlanks(text[1..]);
      assert text == [text[0]] + text[1..];
      before := [text[0]] + before;
    } else if text != "" && IsBlank(text[|text| - 1]) {
      before, after := TrimTakesBlanks(text[..|text| - 1]);
      assert text == text[..|text| - 1] + [text[|text| - 1]];
      after := after + [text[|text| - 1]];
    } else {
      before, after := "", "";
    }
  }

  /** A pull-request contract pins exactly the two SHAs its source captured. */
  predicate BindsPullRequestShas(source: TaskSource, baseSha: Option<Sha>, headSha: Option<Sha>) {
    source.GitHubPullRequest? ==> baseSha == Some(source.baseSha) && headSha == Some(source.headSha)
  }

  predicate NoDuplicates<T(==)>(items: seq<T>) {
    forall i, j :: 0 <= i < j < |items| ==> items[i] != items[j]
  }

  predicate AcceptableDraft(draft: TaskContractDraft) {
    && Trim(draft.goal) != ""
    && draft.acceptanceCriteria != []
    && (forall i :: 0 <= i < |draft.acceptanceCriteria| ==> Trim(draft.acceptanceCriteria[i]) != "")
    && draft.verificationCommands != []
    && BindsPullRequestShas(draft.source, draft.baseSha, draft.headSha)
    && NoDuplicates(draft.dependencies)
    && draft.taskId !in draft.dependencies
  }

  function ContractOf(draft: TaskContractDraft): TaskContract {
    TaskContract(
      CURRENT_TASK_CONTRACT_VERSION, draft.taskId, draft.source, draft.bindingId, Trim(draft.goal),
      seq(|draft.acceptanceCriteria|, i requires 0 <= i < |draft.acceptanceCriteria| => Trim(draft.acceptanceCriteria[i])),
      draft.baseSha, draft.headSha, draft.instructionDigests, draft.verificationCommands,
      draft.requiredCapabilities, draft.dependencies)
  }

  /** Validates a draft, trimming its criteria one by one. A contract comes out for exactly the
      acceptable drafts, and it carries the draft's own identities. */
  method TryFromDraft(draft: TaskContractDraft) returns (r: Result<TaskContract, ContractError>)
    ensures r.Ok? <==> AcceptableDraft(draft)
    ensures r.Ok? ==> r.value == ContractOf(draft)
  {
    var goal := Trim(draft.goal);
    if goal == "" {
      return Err(InvalidGoal);
    }
    var criteria: seq<string> := [];
    var allPresent := true;
    for i := 0 to |draft.acceptanceCriteria|
      invariant |criteria| == i
      invariant forall j :: 0 <= j < i ==> criteria[j] == Trim(draft.acceptanceCriteria[j])
      invariant allPresent <==> forall j :: 0 <= j < i ==> Trim(draft.acceptanceCriteria[j]) != ""
    {
      var criterion := Trim(draft.acceptanceCriteria[i]);
      criteria := criteria + [criterion];
      allPresent := allPresent && criterion != "";
    }
    if criteria == [] || !allPresent {
      return Err(InvalidAcceptanceCriteria);
    }
    if draft.verificationCommands == [] {
      return Err(InvalidVerificationCommands);
    }
    if draft.source.GitHubPullRequest? {
      if draft.baseSha != Some(draft.source.baseSha) || draft.headSha != Some(draft.source.headSha) {
        return Err(InvalidPullRequestShaBinding);
      }
    }
    var seen: set<TaskId> := {};
    var distinct := true;
    for i := 0 to |draft.dependencies|
      invariant seen == set j | 0 <= j < i :: draft.dependencies[j]
      invariant distinct <==> NoDuplicates(draft.dependencies[..i])
    {
      var next := draft.dependencies[i];
      assert draft.dependencies[..i + 1] == draft.dependencies[..i] + [next];
      distinct := distinct && next !in seen;
      seen := seen + {next};
    }
    assert draft.dependencies[..|draft.dependencies|] == draft.dependencies;
    if !distinct || draft.taskId in seen {
      return Err(InvalidDependencies);
    }
    r := Ok(TaskContract(
      CURRENT_TASK_CONTRACT_VERSION, draft.taskId, draft.source, draft.bindingId, goal, criteria,
      draft.baseSha, draft.headSha, draft.instructionDigests, draft.verificationCommands,
      draft.requiredCapabilities, draft.dependencies));
    assert criteria == ContractOf(draft).acceptanceCriteria;
  }
}
