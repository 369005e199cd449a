/** The pull-request queue: each candidate is scored against the whole set, then all are ranked. */
module Queue {
  import opened Base
  import opened Contract

  datatype WorkflowPreset =
    | QuickWins | CiRescue | ReviewClosure | ConflictRecovery | DependencyChain | SecurityFirst | ReleaseTrain
    | StalePullRequestTriage | DraftCompletion | PostMergeWatch | ReviewLoadBalancing | DuplicateOverlapDetection

  datatype Tier = Critical | Ready | Repair | Review | Draft | Stale | Blocked
  {
    function Order(): nat {
      match this
      case Critical => 0
      case Ready => 1
      case Repair => 2
      case Review => 3
      case Draft => 4
      case Stale => 5
      case Blocked => 6
    }
  }

  datatype Candidate = Candidate(
    repositoryFullName: string,
    number: nat,
    title: string,
    draft: bool,
    ciHealth: Option<string>,
    reviewDecision: Option<string>,
    hasConflicts: Option<bool>,
    updatedAt: Instant,
    labels: seq<string>,
    dependencyNumbers: seq<nat>,
    changedPaths: seq<string>,
    manualPriority: Option<int>,
    pinned: bool)

  datatype Identity = Identity(repositoryFullName: string, number: nat)

  datatype Reason =
    | ManuallyPinned | SecuritySensitive | UnknownState | ConflictRecoveryRequired | CiFailing | ReviewChangesRemain
    | DraftCompletionRequired | ApprovedAndPassing | AwaitingReviewClosure | StaleThirtyDays
    | MatchesWorkflow(preset: WorkflowPreset) | BlockedBy(dependency: nat) | Overlaps(path: string)

  datatype Decision = Decision(repositoryFullName: string, number: nat, tier: Tier, score: int, reasons: seq<Reason>)

  datatype QueueError = InvalidCandidate

  const STALE_AFTER: int := 30 * 24 * 60 * NANOS_PER_MINUTE

  // ----- What makes a candidate acceptable -----

  predicate HasDotDot(path: string) {
    exists i :: 0 < i < |path| && path[i - 1] == '.' && path[i] == '.'
  }

  predicate AcceptablePath(path: string) {
    path != "" && path[0] != '/' && !HasDotDot(path) && '\0' !in path
  }

  predicate Acceptable(c: Candidate) {
    && c.number != 0
    && '/' in c.repositoryFullName
    && Trim(c.title) != ""
    && c.number !in c.dependencyNumbers
    && forall path :: path in c.changedPaths ==> AcceptablePath(path)
  }

  function IdentityOf(c: Candidate): Identity {
    Identity(c.repositoryFullName, c.number)
  }

  predicate ValidCandidates(candidates: seq<Candidate>) {
    && (forall i :: 0 <= i < |candidates| ==> Acceptable(candidates[i]))
    && forall i, j :: 0 <= i < j < |candidates| ==> IdentityOf(candidates[i]) != IdentityOf(candidates[j])
  }

  method ValidateCandidates(candidates: seq<Candidate>) returns (valid: bool)
    ensures valid <==> ValidCandidates(candidates)
  {
    var identities: set<Identity> := {};
    for i := 0 to |candidates|
      invariant identities == set j | 0 <= j < i :: IdentityOf(candidates[j])
      invariant ValidCandidates(candidates[..i])
    {
      var candidate := candidates[i];
      if candidate.number == 0 || '/' !in candidate.repositoryFullName || Trim(candidate.title) == ""
         || IdentityOf(candidate) in identities || candidate.number in candidate.dependencyNumbers
      {
        return false;
      }
      for k := 0 to |candidate.changedPaths|
        invariant forall l :: 0 <= l < k ==> AcceptablePath(candidate.changedPaths[l])
      {
        var path := candidate.changedPaths[k];
        if path == "" || path[0] == '/' || HasDotDot(path) || '\0' in path {
          assert path in candidate.changedPaths && !AcceptablePath(path);
          return false;
        }
      }
      identities := identities + {IdentityOf(candidate)};
    }
    assert candidates[..|candidates|] == candidates;
    return true;
  }

  // ----- What a candidate's rank is, as a function of the set of candidates -----

  function LowerChar(c: char): char {
    if 'A' <= c <= 'Z' then c - 'A' + 'a' else c
  }

  function Lower(text: string): string {
    if text == "" then "" else [LowerChar(text[0])] + Lower(text[1..])
  }

  predicate IsSecurity(c: Candidate) {
    exists name :: name in c.labels && Lower(name) in {"security", "vulnerability", "cve"}
  }

  predicate IsUnknown(c: Candidate) { c.ciHealth.None? || c.reviewDecision.None? || c.hasConflicts.None? }
  predicate IsStale(c: Candidate, now: Instant) { now - c.updatedAt >= STALE_AFTER }
  predicate IsFailing(c: Candidate) { c.ciHealth in {Some("failing"), Some("failure")} }
  predicate AsksForChanges(c: Candidate) { c.reviewDecision in {Some("changesRequested"), Some("changes_requested")} }
  predicate HasConflicts(c: Candidate) { c.hasConflicts == Some(true) }
  predicate IsReady(c: Candidate) { c.reviewDecision == Some("approved") && c.ciHealth in {Some("passing"), Some("success")} }

  datatype Standing = Standing(tier: Tier, score: int, reason: Reason)

  function StandingOf(c: Candidate): Standing {
    if IsSecurity(c) then Standing(Critical, 1000, SecuritySensitive)
    else if IsUnknown(c) then Standing(Blocked, 0, UnknownState)
    else if HasConflicts(c) then Standing(Repair, 820, ConflictRecoveryRequired)
    else if IsFailing(c) then Standing(Repair, 800, CiFailing)
    else if AsksForChanges(c) then Standing(Review, 700, ReviewChangesRemain)
    else if c.draft then Standing(Draft, 400, DraftCompletionRequired)
    else if IsReady(c) then Standing(Ready, 900, ApprovedAndPassing)
    else Standing(Review, 600, AwaitingReviewClosure)
  }

  predicate MatchesPreset(c: Candidate, preset: WorkflowPreset, now: Instant) {
    match preset
    case QuickWins => !c.draft && !IsFailing(c) && !HasConflicts(c)
    case CiRescue => IsFailing(c)
    case ReviewClosure => AsksForChanges(c)
    case ReviewLoadBalancing => AsksForChanges(c)
    case ConflictRecovery => HasConflicts(c)
    case DependencyChain => c.dependencyNumbers != []
    case SecurityFirst => IsSecurity(c)
    case ReleaseTrain => "release" in c.labels
    case StalePullRequestTriage => IsStale(c, now)
    case DraftCompletion => c.draft
    case PostMergeWatch => "post-merge" in c.labels
    case DuplicateOverlapDetection => c.changedPaths != []
  }

  function Identities(pool: set<Candidate>): set<Identity> {
    set c | c in pool :: IdentityOf(c)
  }

  /** How many of the listed dependencies are in the queue; a dependency listed twice counts twice. */
  function InQueue(repository: string, dependencies: seq<nat>, identities: set<Identity>): nat {
    if dependencies == [] then 0
    else
      InQueue(repository, dependencies[..|dependencies| - 1], identities) +
      if Identity(repository, Last(dependencies)) in identities then 1 else 0
  }

  predicate SharesPath(c: Candidate, other: Candidate) {
    && other.number != c.number && other.repositoryFullName == c.repositoryFullName
    && exists path :: path in other.changedPaths && path in c.changedPaths
  }

  predicate Overlapping(c: Candidate, pool: set<Candidate>) {
    exists other :: other in pool && SharesPath(c, other)
  }

  /** What the order of the queue looks at. */
  datatype Rank = Rank(tier: Tier, score: int, repositoryFullName: string, number: nat)

  function OwnTier(c: Candidate, now: Instant): Tier {
    if IsStale(c, now) && !StandingOf(c).tier.Blocked? then Stale else StandingOf(c).tier
  }

  function OwnScore(c: Candidate, preset: WorkflowPreset, now: Instant): int {
    (if c.manualPriority.Some? then c.manualPriority.value else 0)
    + (if c.pinned then 2000 else 0)
    + StandingOf(c).score
    + (if MatchesPreset(c, preset, now) then 250 else 0)
  }

  function TierOf(c: Candidate, now: Instant, pool: set<Candidate>): Tier {
    if InQueue(c.repositoryFullName, c.dependencyNumbers, Identities(pool)) > 0 then Blocked
    else OwnTier(c, now)
  }

  function ScoreOf(c: Candidate, preset: WorkflowPreset, now: Instant, pool: set<Candidate>): int {
    OwnScore(c, preset, now)
    - 500 * InQueue(c.repositoryFullName, c.dependencyNumbers, Identities(pool))
    + (if Overlapping(c, pool) && preset.DuplicateOverlapDetection? then 300 else 0)
  }

  function RankOf(c: Candidate, preset: WorkflowPreset, now: Instant, pool: set<Candidate>): Rank {
    Rank(TierOf(c, now, pool), ScoreOf(c, preset, now, pool), c.repositoryFullName, c.number)
  }

  function RankOfDecision(d: Decision): Rank {
    Rank(d.tier, d.score, d.repositoryFullName, d.number)
  }

  function Pool(candidates: seq<Candidate>): set<Candidate> {
    set c | c in candidates
  }

  // ----- Assessing one candidate -----

  /** The first path, in queue order, that another pull request of the repository also changes. */
  method OverlappingPath(c: Candidate, candidates: seq<Candidate>) returns (found: Option<string>)
    ensures found.Some? <==> Overlapping(c, Pool(candidates))
    ensures found.Some? ==> found.value in c.changedPaths
  {
    for i := 0 to |candidates|
      invariant forall j :: 0 <= j < i ==> !SharesPath(c, candidates[j])
    {
      var other := candidates[i];
      if other.number != c.number && other.repositoryFullName == c.repositoryFullName {
        for k := 0 to |other.changedPaths|
          invariant forall l :: 0 <= l < k ==> other.changedPaths[l] !in c.changedPaths
        {
          if other.changedPaths[k] in c.changedPaths {
            assert SharesPath(c, other) && other in Pool(candidates);
            return Some(other.changedPaths[k]);
          }
        }
      }
    }
    return None;
  }

  /** Every listed dependency that is in the queue blocks, costs, and is named. */
  method BlockedByQueue(c: Candidate, identities: set<Identity>) returns (count: nat, reasons: seq<Reason>)
    ensures count == InQueue(c.repositoryFullName, c.dependencyNumbers, identities)
    ensures forall n :: BlockedBy(n) in reasons <==> n in c.dependencyNumbers && Identity(c.repositoryFullName, n) in identities
    ensures forall reason :: reason in reasons ==> reason.BlockedBy?
  {
    count, reasons := 0, [];
    for i := 0 to |c.dependencyNumbers|
      invariant count == InQueue(c.repositoryFullName, c.dependencyNumbers[..i], identities)
      invariant forall n :: BlockedBy(n) in reasons <==> n in c.dependencyNumbers[..i] && Identity(c.repositoryFullName, n) in identities
      invariant forall reason :: reason in reasons ==> reason.BlockedBy?
    {
      var dependency := c.dependencyNumbers[i];
      assert c.dependencyNumbers[..i + 1] == c.dependencyNumbers[..i] + [dependency];
      if Identity(c.repositoryFullName, dependency) in identities {
        count := count + 1;
        reasons := reasons + [BlockedBy(dependency)];
      }
    }
    assert c.dependencyNumbers[..|c.dependencyNumbers|] == c.dependencyNumbers;
  }

  predicate IsOwn(reason: Reason) { !reason.BlockedBy? && !reason.Overlaps? }

  /** What a candidate is worth on its own. */
  method OwnStanding(c: Candidate, preset: WorkflowPreset, now: Instant) returns (tier: Tier, score: int, reasons: seq<Reason>)
    ensures tier == OwnTier(c, now) && score == OwnScore(c, preset, now)
    ensures forall reason :: reason in reasons ==> IsOwn(reason)
  {
    reasons := [];
    score := if c.manualPriority.Some? then c.manualPriority.value else 0;
    if c.pinned {
      score := score + 2000;
      reasons := reasons + [ManuallyPinned];
    }
    var standing := StandingOf(c);
    tier := standing.tier;
    score := score + standing.score;
    reasons := reasons + [standing.reason];
    if IsStale(c, now) {
      reasons := reasons + [StaleThirtyDays];
      if !tier.Blocked? {
        tier := Stale;
      }
    }
    if MatchesPreset(c, preset, now) {
      score := score + 250;
      reasons := reasons + [MatchesWorkflow(preset)];
    }
  }

  method AssessCandidate(c: Candidate, preset: WorkflowPreset, now: Instant, identities: set<Identity>,
                         candidates: seq<Candidate>) returns (d: Decision)
    requires identities == Identities(Pool(candidates))
    ensures RankOfDecision(d) == RankOf(c, preset, now, Pool(candidates))
    ensures forall n :: BlockedBy(n) in d.reasons <==> n in c.dependencyNumbers && Identity(c.repositoryFullName, n) in identities
    ensures forall path :: Overlaps(path) in d.reasons ==> path in c.changedPaths && Overlapping(c, Pool(candidates))
  {
    var tier, score, own := OwnStanding(c, preset, now);
    var count, blocking := BlockedByQueue(c, identities);
    if count > 0 {
      tier := Blocked;
    }
    score := score - 500 * count;
    var path := OverlappingPath(c, candidates);
    var overlap: seq<Reason> := [];
    if path.Some? {
      overlap := [Overlaps(path.value)];
      if preset.DuplicateOverlapDetection? {
        score := score + 300;
      }
    }
    ReasonsSay(own, blocking, overlap);
    d := Decision(c.repositoryFullName, c.number, tier, score, own + blocking + overlap);
  }

  lemma ReasonsSay(own: seq<Reason>, blocking: seq<Reason>, overlap: seq<Reason>)
    requires forall reason :: reason in own ==> IsOwn(reason)
    requires forall reason :: reason in blocking ==> reason.BlockedBy?
    requires forall reason :: reason in overlap ==> reason.Overlaps?
    ensures forall n :: BlockedBy(n) in own + blocking + overlap <==> BlockedBy(n) in blocking
    ensures forall path :: Overlaps(path) in own + blocking + overlap <==> Overlaps(path) in overlap
  {
  }

  // ----- The order -----

  predicate TextLess(a: string, b: string) {
    b != "" && (a == "" || a[0] < b[0] || (a[0] == b[0] && TextLess(a[1..], b[1..])))
  }

  /** Tier first, then the higher score, then repository and number. */
  predicate Before(a: Rank, b: Rank) {
    if a.tier != b.tier then a.tier.Order() < b.tier.Order()
    else if a.score != b.score then b.score < a.score
    else if a.repositoryFullName != b.repositoryFullName then TextLess(a.repositoryFullName, b.repositoryFullName)
    else a.number < b.number
  }

  lemma {:induction false} TextLessIsTotal(a: string, b: string)
    ensures a == b || TextLess(a, b) || TextLess(b, a)
    ensures !(TextLess(a, b) && TextLess(b, a)) && !TextLess(a, a)
  {
    if a != "" && b != "" && a[0] == b[0] {
      TextLessIsTotal(a[1..], b[1..]);
      assert a == [a[0]] + a[1..] && b == [b[0]] + b[1..];
    }
    if a != "" {
      NotLessThanItself(a);
    }
  }

  lemma {:induction false} NotLessThanItself(a: string)
    ensures !TextLess(a, a)
  {
    if a != "" {
      NotLessThanItself(a[1..]);
    }
  }

  lemma {:induction false} TextLessIsTransitive(a: string, b: string, c: string)
    requires TextLess(a, b) && TextLess(b, c)
    ensures TextLess(a, c)
  {
    if a != "" && a[0] == b[0] == c[0] {
      TextLessIsTransitive(a[1..], b[1..], c[1..]);
    }
  }

  lemma BeforeIsStrictOrder(a: Rank, b: Rank, c: Rank)
    ensures a == b || Before(a, b) || Before(b, a)
    ensures !(Before(a, b) && Before(b, a))
    ensures Before(a, b) && Before(b, c) ==> Before(a, c)
  {
    TextLessIsTotal(a.repositoryFullName, b.repositoryFullName);
    if TextLess(a.repositoryFullName, b.repositoryFullName) && TextLess(b.repositoryFullName, c.repositoryFullName) {
      TextLessIsTransitive(a.repositoryFullName, b.repositoryFullName, c.repositoryFullName);
    }
  }

  predicate Precedes(a: Decision, b: Decision) {
    Before(RankOfDecision(a), RankOfDecision(b))
  }

  predicate Ranked(decisions: seq<Decision>) {
    forall i, j :: 0 <= i < j < |decisions| ==> Precedes(decisions[i], decisions[j])
  }

  lemma PrecedesIsStrictOrder(a: Decision, b: Decision, c: Decision)
    ensures RankOfDecision(a) == RankOfDecision(b) || Precedes(a, b) || Precedes(b, a)
    ensures !(Precedes(a, b) && Precedes(b, a))
    ensures Precedes(a, b) && Precedes(b, c) ==> Precedes(a, c)
  {
    BeforeIsStrictOrder(RankOfDecision(a), RankOfDecision(b), RankOfDecision(c));
  }

  function Insert(d: Decision, sorted: seq<Decision>): seq<Decision> {
    if sorted == [] || !Precedes(d, Last(sorted)) then sorted + [d]
    else Insert(d, sorted[..|sorted| - 1]) + [Last(sorted)]
  }

  /** The stable sort by rank. */
  function SortDecisions(decisions: seq<Decision>): seq<Decision> {
    if decisions == [] then [] else Insert(Last(decisions), SortDecisions(decisions[..|decisions| - 1]))
  }

  lemma {:induction false} InsertInserts(d: Decision, sorted: seq<Decision>)
    ensures forall e :: e in Insert(d, sorted) <==> e == d || e in sorted
    ensures |Insert(d, sorted)| == |sorted| + 1
  {
    if sorted != [] && Precedes(d, Last(sorted)) {
      InsertInserts(d, sorted[..|sorted| - 1]);
      assert sorted == sorted[..|sorted| - 1] + [Last(sorted)];
    }
  }

  lemma {:induction false} InsertKeepsRanked(d: Decision, sorted: seq<Decision>)
    requires Ranked(sorted) && forall i :: 0 <= i < |sorted| ==> RankOfDecision(sorted[i]) != RankOfDecision(d)
    ensures Ranked(Insert(d, sorted))
  {
    if sorted == [] {
    } else if !Precedes(d, Last(sorted)) {
      forall i | 0 <= i < |sorted| ensures Precedes(sorted[i], d) {
        PrecedesIsStrictOrder(sorted[i], Last(sorted), d);
        PrecedesIsStrictOrder(Last(sorted), d, d);
      }
    } else {
      var front := sorted[..|sorted| - 1];
      InsertKeepsRanked(d, front);
      InsertInserts(d, front);
      var inserted := Insert(d, front);
      forall i | 0 <= i < |inserted| ensures Precedes(inserted[i], Last(sorted)) {
        assert inserted[i] == d || inserted[i] in front;
      }
    }
  }

  predicate DistinctRanks(decisions: seq<Decision>) {
    forall i, j :: 0 <= i < j < |decisions| ==> RankOfDecision(decisions[i]) != RankOfDecision(decisions[j])
  }

  /** Decisions of different ranks come out strictly ordered, none lost and none added. */
  lemma {:induction false} SortRanks(decisions: seq<Decision>)
    requires DistinctRanks(decisions)
    ensures Ranked(SortDecisions(decisions)) && |SortDecisions(decisions)| == |decisions|
    ensures forall e :: e in SortDecisions(decisions) <==> e in decisions
  {
    if decisions != [] {
      var front, last := decisions[..|decisions| - 1], Last(decisions);
      assert decisions == front + [last];
      SortRanks(front);
      var sorted := SortDecisions(front);
      forall i | 0 <= i < |sorted| ensures RankOfDecision(sorted[i]) != RankOfDecision(last) {
        assert sorted[i] in front;
      }
      InsertKeepsRanked(last, sorted);
      InsertInserts(last, sorted);
    }
  }

  function RankSet(decisions: seq<Decision>): set<Rank> {
    set d | d in decisions :: RankOfDecision(d)
  }

  function RanksOf(candidates: seq<Candidate>, preset: WorkflowPreset, now: Instant): set<Rank> {
    set c | c in candidates :: RankOf(c, preset, now, Pool(candidates))
  }

  /** All candidates, each ranked against the whole set, in strict order. */
  ghost predicate IsAssessment(decisions: seq<Decision>, candidates: seq<Candidate>, preset: WorkflowPreset, now: Instant) {
    && Ranked(decisions)
    && |decisions| == |candidates|
    && RankSet(decisions) == RanksOf(candidates, preset, now)
  }

  method AssessQueue(candidates: seq<Candidate>, preset: WorkflowPreset, now: Instant)
    returns (r: Result<seq<Decision>, QueueError>)
    ensures r.Ok? <==> ValidCandidates(candidates)
    ensures r.Ok? ==> IsAssessment(r.value, candidates, preset, now)
    ensures r.Ok? ==> forall i, j :: 0 <= i < j < |r.value| ==> StandsBefore(r.value[i], r.value[j])
  {
    var valid := ValidateCandidates(candidates);
    if !valid {
      return Err(InvalidCandidate);
    }
    var identities := set c | c in candidates :: IdentityOf(c);
    assert identities == Identities(Pool(candidates));
    var decisions: seq<Decision> := [];
    for i := 0 to |candidates|
      invariant |decisions| == i
      invariant forall j :: 0 <= j < i ==> RankOfDecision(decisions[j]) == RankOf(candidates[j], preset, now, Pool(candidates))
    {
      var decision := AssessCandidate(candidates[i], preset, now, identities, candidates);
      decisions := decisions + [decision];
    }
    RanksAreAssessed(decisions, candidates, preset, now);
    SortRanks(decisions);
    var sorted := SortDecisions(decisions);
    assert RankSet(sorted) == RankSet(decisions);
    forall i, j | 0 <= i < j < |sorted| ensures StandsBefore(sorted[i], sorted[j]) {
      AssessmentIsOrdered(candidates, sorted, preset, now, i, j);
    }
    return Ok(sorted);
  }

  lemma RanksAreAssessed(decisions: seq<Decision>, candidates: seq<Candidate>, preset: WorkflowPreset, now: Instant)
    requires ValidCandidates(candidates) && |decisions| == |candidates|
    requires forall j :: 0 <= j < |candidates| ==> RankOfDecision(decisions[j]) == RankOf(candidates[j], preset, now, Pool(candidates))
    ensures DistinctRanks(decisions) && RankSet(decisions) == RanksOf(candidates, preset, now)
  {
  }

  // ----- What the queue promises -----

  lemma {:induction false} RankedIsUnique(a: seq<Decision>, b: seq<Decision>)
    requires Ranked(a) && Ranked(b) && RankSet(a) == RankSet(b)
    ensures |a| == |b|
    ensures forall i :: 0 <= i < |a| ==> RankOfDecision(a[i]) == RankOfDecision(b[i])
  {
    if a == [] {
      FirstRank(b);
    } else {
      assert RankOfDecision(Last(a)) in RankSet(b);
      LastsAgree(a, b);
      FrontRanks(a);
      FrontRanks(b);
      RankedIsUnique(a[..|a| - 1], b[..|b| - 1]);
    }
  }

  lemma FirstRank(a: seq<Decision>)
    ensures a != [] ==> RankOfDecision(a[0]) in RankSet(a)
  {
  }

  lemma LastsAgree(a: seq<Decision>, b: seq<Decision>)
    requires Ranked(a) && Ranked(b) && a != [] && b != [] && RankSet(a) == RankSet(b)
    ensures RankOfDecision(Last(a)) == RankOfDecision(Last(b))
  {
    assert RankOfDecision(Last(a)) in RankSet(b) && RankOfDecision(Last(b)) in RankSet(a);
    var d :| d in b && RankOfDecision(d) == RankOfDecision(Last(a));
    var e :| e in a && RankOfDecision(e) == RankOfDecision(Last(b));
    PrecedesIsStrictOrder(Last(a), Last(b), d);
  }

  lemma FrontRanks(a: seq<Decision>)
    requires Ranked(a) && a != []
    ensures RankSet(a[..|a| - 1]) == RankSet(a) - {RankOfDecision(Last(a))}
  {
  }

  /** The order in which candidates come in has no influence on the resulting ranking. */
  lemma OrderIsInputIndependent(a: seq<Candidate>, first: seq<Decision>, b: seq<Candidate>, second: seq<Decision>,
                                preset: WorkflowPreset, now: Instant)
    requires multiset(a) == multiset(b)
    requires IsAssessment(first, a, preset, now) && IsAssessment(second, b, preset, now)
    ensures |first| == |second| == |a|
    ensures forall i :: 0 <= i < |first| ==>
              && first[i].repositoryFullName == second[i].repositoryFullName && first[i].number == second[i].number
              && first[i].tier == second[i].tier && first[i].score == second[i].score
  {
    assert forall c :: c in a <==> c in multiset(a);
    assert forall c :: c in b <==> c in multiset(b);
    assert Pool(a) == Pool(b);
    assert RanksOf(a, preset, now) == RanksOf(b, preset, now);
    RankedIsUnique(first, second);
    forall i | 0 <= i < |first|
      ensures first[i].repositoryFullName == second[i].repositoryFullName && first[i].number == second[i].number
      ensures first[i].tier == second[i].tier && first[i].score == second[i].score
    {
      assert RankOfDecision(first[i]) == RankOfDecision(second[i]);
    }
  }

  /** Every candidate is decided exactly once, and only candidates are. */
  lemma EachCandidateOnce(candidates: seq<Candidate>, decisions: seq<Decision>, preset: WorkflowPreset, now: Instant, c: Candidate)
    returns (j: nat)
    requires ValidCandidates(candidates) && IsAssessment(decisions, candidates, preset, now) && c in candidates
    ensures j < |decisions| && RankOfDecision(decisions[j]) == RankOf(c, preset, now, Pool(candidates))
    ensures forall i :: 0 <= i < |decisions| && decisions[i].repositoryFullName == c.repositoryFullName && decisions[i].number == c.number ==> i == j
  {
    assert RankOf(c, preset, now, Pool(candidates)) in RankSet(decisions);
    j :| 0 <= j < |decisions| && RankOfDecision(decisions[j]) == RankOf(c, preset, now, Pool(candidates));
    forall i | 0 <= i < |decisions| && decisions[i].repositoryFullName == c.repositoryFullName && decisions[i].number == c.number
      ensures i == j
    {
      assert RankOfDecision(decisions[i]) in RankSet(decisions);
      var other :| other in candidates && RankOfDecision(decisions[i]) == RankOf(other, preset, now, Pool(candidates));
      assert IdentityOf(other) == IdentityOf(c);
      PrecedesIsStrictOrder(decisions[i], decisions[j], decisions[i]);
    }
  }

  /** Whatever waits for another candidate comes after everything that is not blocked. */
  lemma DependentsComeLast(candidates: seq<Candidate>, decisions: seq<Decision>, preset: WorkflowPreset, now: Instant,
                           dependent: Candidate, dependency: Candidate, i: nat, j: nat)
    requires ValidCandidates(candidates) && IsAssessment(decisions, candidates, preset, now)
    requires dependent in candidates && dependency in candidates
    requires dependency.repositoryFullName == dependent.repositoryFullName && dependency.number in dependent.dependencyNumbers
    requires i < |decisions| && !decisions[i].tier.Blocked?
    requires j < |decisions| && decisions[j].repositoryFullName == dependent.repositoryFullName && decisions[j].number == dependent.number
    ensures i < j
  {
    var k := EachCandidateOnce(candidates, decisions, preset, now, dependent);
    assert IdentityOf(dependency) in Identities(Pool(candidates));
    InQueueBound(dependent.repositoryFullName, dependent.dependencyNumbers, Identities(Pool(candidates)));
    assert decisions[j].tier.Blocked?;
    PrecedesIsStrictOrder(decisions[i], decisions[j], decisions[i]);
  }

  /** The tiers, best first. */
  const TIERS: seq<Tier> := [Critical, Ready, Repair, Review, Draft, Stale, Blocked]

  predicate NotAfter(a: Tier, b: Tier) {
    exists i, j :: 0 <= i <= j < |TIERS| && TIERS[i] == a && TIERS[j] == b
  }

  /** The order of texts: at the first difference the lower character wins, and a prefix comes first. */
  predicate ComesBefore(a: string, b: string) {
    exists k :: 0 <= k <= |a| && k <= |b| && a[..k] == b[..k]
                && ((k == |a| && k < |b|) || (k < |a| && k < |b| && a[k] < b[k]))
  }

  lemma {:induction false} TextLessComesBefore(a: string, b: string)
    requires TextLess(a, b)
    ensures ComesBefore(a, b)
  {
    if a == "" || a[0] < b[0] {
      assert a[..0] == b[..0];
    } else {
      TextLessComesBefore(a[1..], b[1..]);
      var k :| 0 <= k <= |a[1..]| && k <= |b[1..]| && a[1..][..k] == b[1..][..k]
               && ((k == |a[1..]| && k < |b[1..]|) || (k < |a[1..]| && k < |b[1..]| && a[1..][k] < b[1..][k]));
      assert a[..k + 1] == [a[0]] + a[1..][..k] && b[..k + 1] == [b[0]] + b[1..][..k];
    }
  }

  /** What it means for one decision to stand before another. */
  predicate StandsBefore(first: Decision, second: Decision) {
    && NotAfter(first.tier, second.tier)
    && (first.tier == second.tier ==>
          && first.score >= second.score
          && (first.score == second.score ==>
                || ComesBefore(first.repositoryFullName, second.repositoryFullName)
                || (first.repositoryFullName == second.repositoryFullName && first.number < second.number)))
  }

  lemma OrderedTiers(a: Tier, b: Tier)
    requires a.Order() <= b.Order()
    ensures NotAfter(a, b)
  {
    assert TIERS[a.Order()] == a && TIERS[b.Order()] == b;
  }

  /** The queue shows better tiers first, within a tier higher scores first, and on equal scores
      repositories and then numbers in ascending order. */
  lemma AssessmentIsOrdered(candidates: seq<Candidate>, decisions: seq<Decision>, preset: WorkflowPreset, now: Instant,
                            i: nat, j: nat)
    requires IsAssessment(decisions, candidates, preset, now) && i < j < |decisions|
    ensures StandsBefore(decisions[i], decisions[j])
  {
    var a, b := decisions[i], decisions[j];
    assert Precedes(a, b);
    OrderedTiers(a.tier, b.tier);
    if TextLess(a.repositoryFullName, b.repositoryFullName) {
      TextLessComesBefore(a.repositoryFullName, b.repositoryFullName);
    }
  }

  // ----- What a candidate's fields are worth -----

  predicate SameLetter(c: char, lower: char) { c == lower || ('A' <= c <= 'Z' && c - 'A' + 'a' == lower) }

  /** Equal to a lower-case name but for the case of ASCII letters. */
  predicate Spells(text: string, name: string) {
    |text| == |name| && forall i :: 0 <= i < |text| ==> SameLetter(text[i], name[i])
  }

  predicate IsLowerName(name: string) {
    forall i :: 0 <= i < |name| ==> !('A' <= name[i] <= 'Z')
  }

  lemma {:induction false} LowerSpells(text: string, name: string)
    requires IsLowerName(name)
    ensures Lower(text) == name <==> Spells(text, name)
  {
    if text != "" && name != "" {
      LowerSpells(text[1..], name[1..]);
      assert text == [text[0]] + text[1..] && name == [name[0]] + name[1..];
      assert Lower(text) == [LowerChar(text[0])] + Lower(text[1..]);
      if Spells(text, name) {
        assert forall i :: 0 <= i < |text| - 1 ==> text[1..][i] == text[i + 1] && name[1..][i] == name[i + 1];
      }
      if Spells(text[1..], name[1..]) && SameLetter(text[0], name[0]) {
        forall i | 0 <= i < |text| ensures SameLetter(text[i], name[i]) {
          if i > 0 { assert text[i] == text[1..][i - 1] && name[i] == name[1..][i - 1]; }
        }
      }
    }
  }

  predicate LabelledSecurity(c: Candidate) {
    exists i :: 0 <= i < |c.labels| &&
      (Spells(c.labels[i], "security") || Spells(c.labels[i], "vulnerability") || Spells(c.labels[i], "cve"))
  }

  lemma SecurityIsLabelled(c: Candidate)
    ensures IsSecurity(c) <==> LabelledSecurity(c)
  {
    forall i | 0 <= i < |c.labels|
      ensures Lower(c.labels[i]) in {"security", "vulnerability", "cve"} <==>
                Spells(c.labels[i], "security") || Spells(c.labels[i], "vulnerability") || Spells(c.labels[i], "cve")
    {
      LowerSpells(c.labels[i], "security");
      LowerSpells(c.labels[i], "vulnerability");
      LowerSpells(c.labels[i], "cve");
    }
    if name :| name in c.labels && Lower(name) in {"security", "vulnerability", "cve"} {
      var i :| 0 <= i < |c.labels| && c.labels[i] == name;
    }
  }

  /** The dependencies of a candidate that are in the queue, by position. */
  function QueuedDependencies(c: Candidate, pool: set<Candidate>): set<nat> {
    set k: nat | k < |c.dependencyNumbers| &&
      exists other :: other in pool && other.repositoryFullName == c.repositoryFullName && other.number == c.dependencyNumbers[k]
  }

  lemma QueuedByIdentity(c: Candidate, pool: set<Candidate>, k: nat)
    requires k < |c.dependencyNumbers|
    ensures k in QueuedDependencies(c, pool) <==> Identity(c.repositoryFullName, c.dependencyNumbers[k]) in Identities(pool)
  {
    if other :| other in pool && other.repositoryFullName == c.repositoryFullName && other.number == c.dependencyNumbers[k] {
      assert IdentityOf(other) == Identity(c.repositoryFullName, c.dependencyNumbers[k]);
    }
  }

  function Below(positions: set<nat>, n: nat): set<nat> {
    set k | k in positions && k < n
  }

  lemma {:induction false} InQueueCounts(c: Candidate, pool: set<Candidate>, n: nat)
    requires n <= |c.dependencyNumbers|
    ensures InQueue(c.repositoryFullName, c.dependencyNumbers[..n], Identities(pool)) == |Below(QueuedDependencies(c, pool), n)|
  {
    var queued := QueuedDependencies(c, pool);
    if n == 0 {
      assert Below(queued, 0) == {};
    } else {
      InQueueCounts(c, pool, n - 1);
      QueuedByIdentity(c, pool, n - 1);
      assert c.dependencyNumbers[..n][..n - 1] == c.dependencyNumbers[..n - 1];
      assert Below(queued, n) == Below(queued, n - 1) + if n - 1 in queued then {n - 1} else {};
    }
  }

  predicate Failing(c: Candidate) { c.ciHealth == Some("failing") || c.ciHealth == Some("failure") }
  predicate Passing(c: Candidate) { c.ciHealth == Some("passing") || c.ciHealth == Some("success") }
  predicate ChangesRequested(c: Candidate) {
    c.reviewDecision == Some("changesRequested") || c.reviewDecision == Some("changes_requested")
  }
  predicate Conflicting(c: Candidate) { c.hasConflicts == Some(true) }
  predicate Unread(c: Candidate) { c.ciHealth == None || c.reviewDecision == None || c.hasConflicts == None }
  predicate ThirtyDaysOld(c: Candidate, now: Instant) { c.updatedAt + 30 * 24 * 60 * NANOS_PER_MINUTE <= now }

  /** The tier and the base score of a candidate's own state, from its fields. */
  predicate HasStanding(c: Candidate, tier: Tier, score: int) {
    if LabelledSecurity(c) then tier == Critical && score == 1000
    else if Unread(c) then tier == Blocked && score == 0
    else if Conflicting(c) then tier == Repair && score == 820
    else if Failing(c) then tier == Repair && score == 800
    else if ChangesRequested(c) then tier == Review && score == 700
    else if c.draft then tier == Draft && score == 400
    else if c.reviewDecision == Some("approved") && Passing(c) then tier == Ready && score == 900
    else tier == Review && score == 600
  }

  /** What each workflow looks for. */
  predicate Suits(c: Candidate, preset: WorkflowPreset, now: Instant) {
    || (preset == QuickWins && !c.draft && !Failing(c) && !Conflicting(c))
    || (preset == CiRescue && Failing(c))
    || ((preset == ReviewClosure || preset == ReviewLoadBalancing) && ChangesRequested(c))
    || (preset == ConflictRecovery && Conflicting(c))
    || (preset == DependencyChain && |c.dependencyNumbers| > 0)
    || (preset == SecurityFirst && LabelledSecurity(c))
    || (preset == ReleaseTrain && exists i :: 0 <= i < |c.labels| && c.labels[i] == "release")
    || (preset == StalePullRequestTriage && ThirtyDaysOld(c, now))
    || (preset == DraftCompletion && c.draft)
    || (preset == PostMergeWatch && exists i :: 0 <= i < |c.labels| && c.labels[i] == "post-merge")
    || (preset == DuplicateOverlapDetection && |c.changedPaths| > 0)
  }

  /** Another pull request of the same repository changes one of the candidate's paths. */
  predicate HasOverlap(c: Candidate, pool: set<Candidate>) {
    exists other, i, j ::
      && other in pool && other.repositoryFullName == c.repositoryFullName && other.number != c.number
      && 0 <= i < |c.changedPaths| && 0 <= j < |other.changedPaths| && c.changedPaths[i] == other.changedPaths[j]
  }

  lemma OverlapIsShared(c: Candidate, pool: set<Candidate>)
    ensures Overlapping(c, pool) <==> HasOverlap(c, pool)
  {
    if other :| other in pool && SharesPath(c, other) {
      var path :| path in other.changedPaths && path in c.changedPaths;
      var i :| 0 <= i < |c.changedPaths| && c.changedPaths[i] == path;
      var j :| 0 <= j < |other.changedPaths| && other.changedPaths[j] == path;
      assert HasOverlap(c, pool);
    }
    if HasOverlap(c, pool) {
      var other, i, j :|
        && other in pool && other.repositoryFullName == c.repositoryFullName && other.number != c.number
        && 0 <= i < |c.changedPaths| && 0 <= j < |other.changedPaths| && c.changedPaths[i] == other.changedPaths[j];
      assert c.changedPaths[i] in other.changedPaths && c.changedPaths[i] in c.changedPaths;
      assert SharesPath(c, other);
    }
  }

  lemma StandingIsExact(c: Candidate)
    ensures HasStanding(c, StandingOf(c).tier, StandingOf(c).score)
  {
    SecurityIsLabelled(c);
  }

  lemma PresetIsExact(c: Candidate, preset: WorkflowPreset, now: Instant)
    ensures MatchesPreset(c, preset, now) <==> Suits(c, preset, now)
  {
    SecurityIsLabelled(c);
  }

  /** Where a candidate ends up, from its own fields and the set it is in: its own tier unless it is stale
      or blocked, and its base score with 2000 for a pin, 250 for a suiting workflow, 300 for an overlap
      that is looked for, and 500 less for each listed dependency in the queue. */
  lemma RankFromFields(c: Candidate, preset: WorkflowPreset, now: Instant, pool: set<Candidate>) returns (tier: Tier, score: int)
    ensures HasStanding(c, tier, score)
    ensures var rank := RankOf(c, preset, now, pool);
            && rank.tier == (if QueuedDependencies(c, pool) != {} then Blocked
                             else if ThirtyDaysOld(c, now) && tier != Blocked then Stale else tier)
            && rank.score == score
                             + (if c.manualPriority.Some? then c.manualPriority.value else 0)
                             + (if c.pinned then 2000 else 0)
                             + (if Suits(c, preset, now) then 250 else 0)
                             + (if HasOverlap(c, pool) && preset == DuplicateOverlapDetection then 300 else 0)
                             - 500 * |QueuedDependencies(c, pool)|
  {
    tier, score := StandingOf(c).tier, StandingOf(c).score;
    StandingIsExact(c);
    PresetIsExact(c, preset, now);
    OverlapIsShared(c, pool);
    var n := |c.dependencyNumbers|;
    InQueueCounts(c, pool, n);
    assert c.dependencyNumbers[..n] == c.dependencyNumbers;
    assert Below(QueuedDependencies(c, pool), n) == QueuedDependencies(c, pool);
  }

  /** Every candidate's decision, from the candidate's own fields. */
  lemma DecidedFromFields(candidates: seq<Candidate>, decisions: seq<Decision>, preset: WorkflowPreset, now: Instant, c: Candidate)
    returns (j: nat, tier: Tier, score: int)
    requires ValidCandidates(candidates) && IsAssessment(decisions, candidates, preset, now) && c in candidates
    ensures j < |decisions| && decisions[j].repositoryFullName == c.repositoryFullName && decisions[j].number == c.number
    ensures HasStanding(c, tier, score)
    ensures var pool := Pool(candidates);
            && decisions[j].tier == (if QueuedDependencies(c, pool) != {} then Blocked
                                     else if ThirtyDaysOld(c, now) && tier != Blocked then Stale else tier)
            && decisions[j].score == score
                                     + (if c.manualPriority.Some? then c.manualPriority.value else 0)
                                     + (if c.pinned then 2000 else 0)
                                     + (if Suits(c, preset, now) then 250 else 0)
                                     + (if HasOverlap(c, pool) && preset == DuplicateOverlapDetection then 300 else 0)
                                     - 500 * |QueuedDependencies(c, pool)|
  {
    j := EachCandidateOnce(candidates, decisions, preset, now, c);
    tier, score := RankFromFields(c, preset, now, Pool(candidates));
  }

  lemma {:induction false} InQueueBound(repository: string, dependencies: seq<nat>, identities: set<Identity>)
    ensures InQueue(repository, dependencies, identities) <= |dependencies|
    ensures InQueue(repository, dependencies, identities) > 0 <==>
              exists d :: d in dependencies && Identity(repository, d) in identities
  {
    if dependencies != [] {
      var front, last := dependencies[..|dependencies| - 1], Last(dependencies);
      InQueueBound(repository, front, identities);
      assert dependencies == front + [last];
      if InQueue(repository, dependencies, identities) > 0 && InQueue(repository, front, identities) == 0 {
        assert last in dependencies && Identity(repository, last) in identities;
      }
    }
  }

  /** A candidate is blocked exactly when it depends on one in the queue, or its state is unknown and it
      is not a security change; and its score apart from manual priority stays within fixed bounds. */
  lemma RankBounds(c: Candidate, preset: WorkflowPreset, now: Instant, pool: set<Candidate>)
    ensures var rank := RankOf(c, preset, now, pool);
            var manual := if c.manualPriority.Some? then c.manualPriority.value else 0;
            && (rank.tier.Blocked? <==>
                  || (exists d :: d in c.dependencyNumbers && Identity(c.repositoryFullName, d) in Identities(pool))
                  || (IsUnknown(c) && !IsSecurity(c)))
            && -500 * |c.dependencyNumbers| <= rank.score - manual <= 3550
  {
    InQueueBound(c.repositoryFullName, c.dependencyNumbers, Identities(pool));
  }
}
