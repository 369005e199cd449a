/** The pull-request monitor: a small mutable machine fed with untrusted remote observations. */
module Monitoring {
  import opened Base

  const INITIAL_BACKOFF_SECONDS: int := 30
  const MAX_BACKOFF_SECONDS: int := 15 * 60
  const U32_MAX: nat := 0xFFFF_FFFF

  datatype CIState = Pending | Success | Failure
  datatype ReviewState = Pending | Approved | ChangesRequested | ApprovalDismissed
  datatype Mergeability = Unknown | Mergeable | Conflicting | InaccessibleFork
  datatype MonitorState = Pending | RepairNeeded | Succeeded | Blocked | Cancelled
  {
    predicate IsTerminal() { Succeeded? || Blocked? || Cancelled? }
  }

  datatype RemoteObservation = RemoteObservation(
    observedAt: Instant,
    headSha: Sha,
    baseSha: Sha,
    ci: CIState,
    review: ReviewState,
    mergeability: Mergeability,
    repositoryAccessible: bool,
    networkAvailable: bool,
    rateLimitedUntil: Option<Instant>)

  datatype MonitorOutcome = MonitorOutcome(state: MonitorState, invalidateApprovals: bool)

  datatype MonitoringError = InvalidRepository | InvalidPullRequest | InvalidSha | InvalidRepairBudget | Terminal

  /** A monitor as it is stored. */
  datatype Monitor = Monitor(
    id: MonitorId,
    taskId: TaskId,
    repositoryFullName: string,
    pullRequestNumber: nat,
    expectedHeadSha: Sha,
    expectedBaseSha: Sha,
    state: MonitorState,
    attemptCount: nat,
    repairIteration: nat,
    repairBudget: nat,
    nextAttemptAt: Option<Instant>,
    latestObservation: Option<RemoteObservation>,
    createdAt: Instant,
    updatedAt: Instant)

  predicate IsHexDigit(c: char) {
    '0' <= c <= '9' || 'a' <= c <= 'f' || 'A' <= c <= 'F'
  }

  predicate ValidSha(value: Sha) {
    |value| == 40 && forall i :: 0 <= i < |value| ==> IsHexDigit(value[i])
  }

  predicate ValidRepositoryName(name: string) {
    '/' in name && forall c :: c in name ==> c !in " \t\n\r"
  }

  // ----- What one observation means -----

  datatype Verdict = Retry | WaitUntil(until: Instant) | Block | Repair | Succeed

  predicate IsGreen(observation: RemoteObservation) {
    observation.ci.Success? && observation.review.Approved? && observation.mergeability.Mergeable?
  }

  predicate AsksForRepair(observation: RemoteObservation) {
    observation.ci.Failure? || observation.review.ChangesRequested? || observation.review.ApprovalDismissed?
  }

  predicate SameIdentity(monitor: Monitor, observation: RemoteObservation) {
    observation.headSha == monitor.expectedHeadSha && observation.baseSha == monitor.expectedBaseSha
  }

  /** Transient trouble first, then identity, then mergeability, then CI and review. */
  function VerdictOn(monitor: Monitor, observation: RemoteObservation, now: Instant): Verdict {
    if !observation.networkAvailable then Retry
    else if observation.rateLimitedUntil.Some? && observation.rateLimitedUntil.value > now then
      WaitUntil(observation.rateLimitedUntil.value)
    else if !observation.repositoryAccessible || !SameIdentity(monitor, observation) then Block
    else match observation.mergeability
      case Conflicting => Block
      case InaccessibleFork => Block
      case Unknown => Retry
      case Mergeable =>
        if AsksForRepair(observation) then
          if monitor.repairIteration < monitor.repairBudget then Repair else Block
        else if IsGreen(observation) then Succeed
        else Retry
  }

  function Pow2(n: nat): nat {
    if n == 0 then 1 else 2 * Pow2(n - 1)
  }

  function Min(a: int, b: int): int {
    if a < b then a else b
  }

  /** Bitwise exclusive or. */
  function Xor(a: nat, b: nat): nat
    decreases a + b
  {
    if a == 0 then b
    else if b == 0 then a
    else 2 * Xor(a / 2, b / 2) + (a + b) % 2
  }

  /** Seconds until the next attempt once `attempts` observations have been taken. */
  function DelaySeconds(id: MonitorId, attempts: nat): int {
    var exponent := Min(if attempts == 0 then 0 else attempts - 1, 5);
    Min(INITIAL_BACKOFF_SECONDS * Pow2(exponent), MAX_BACKOFF_SECONDS) + Xor(id, attempts) % 11
  }

  /** A counted observation before its verdict is applied. */
  function Counted(monitor: Monitor, observation: RemoteObservation, now: Instant): Monitor {
    monitor.(attemptCount := if monitor.attemptCount < U32_MAX then monitor.attemptCount + 1 else monitor.attemptCount,
             latestObservation := Some(observation), updatedAt := now)
  }

  predicate CanObserve(monitor: Monitor, observation: RemoteObservation) {
    !monitor.state.IsTerminal() && ValidSha(observation.headSha) && ValidSha(observation.baseSha)
  }

  /** A verdict on a counted monitor. */
  function Judged(m: Monitor, verdict: Verdict, now: Instant): Monitor {
    match verdict
    case Retry => m.(state := MonitorState.Pending,
                     nextAttemptAt := Some(now + DelaySeconds(m.id, m.attemptCount) * NANOS_PER_SECOND))
    case WaitUntil(until) => m.(state := MonitorState.Pending, nextAttemptAt := Some(until))
    case Block => m.(state := Blocked, nextAttemptAt := None)
    case Repair => m.(state := RepairNeeded, repairIteration := m.repairIteration + 1, nextAttemptAt := None)
    case Succeed => m.(state := Succeeded, nextAttemptAt := None)
  }

  function Observed(monitor: Monitor, observation: RemoteObservation, now: Instant): Monitor {
    Judged(Counted(monitor, observation, now), VerdictOn(monitor, observation, now), now)
  }

  function OutcomeOf(monitor: Monitor): MonitorOutcome {
    MonitorOutcome(monitor.state, monitor.state.Blocked? || monitor.state.RepairNeeded?)
  }

  function Woken(monitor: Monitor, now: Instant): Monitor {
    if monitor.state.Pending? then monitor.(nextAttemptAt := Some(now), updatedAt := now) else monitor
  }

  function CancelledBy(monitor: Monitor, now: Instant): Monitor {
    if monitor.state.IsTerminal() then monitor
    else monitor.(state := Cancelled, nextAttemptAt := None, updatedAt := now)
  }

  // ----- The mutable monitor -----

  class MonitorRecord {
    const id: MonitorId
    const taskId: TaskId
    const repositoryFullName: string
    const pullRequestNumber: nat
    const expectedHeadSha: Sha
    const expectedBaseSha: Sha
    const repairBudget: nat
    const createdAt: Instant
    var state: MonitorState
    var attemptCount: nat
    var repairIteration: nat
    var nextAttemptAt: Option<Instant>
    var latestObservation: Option<RemoteObservation>
    var updatedAt: Instant

    function Value(): Monitor
      reads this
    {
      Monitor(id, taskId, repositoryFullName, pullRequestNumber, expectedHeadSha, expectedBaseSha, state,
              attemptCount, repairIteration, repairBudget, nextAttemptAt, latestObservation, createdAt, updatedAt)
    }

    constructor Load(monitor: Monitor)
      ensures Value() == monitor
    {
      id, taskId := monitor.id, monitor.taskId;
      repositoryFullName, pullRequestNumber := monitor.repositoryFullName, monitor.pullRequestNumber;
      expectedHeadSha, expectedBaseSha := monitor.expectedHeadSha, monitor.expectedBaseSha;
      repairBudget, createdAt, state := monitor.repairBudget, monitor.createdAt, monitor.state;
      attemptCount, repairIteration := monitor.attemptCount, monitor.repairIteration;
      nextAttemptAt, latestObservation := monitor.nextAttemptAt, monitor.latestObservation;
      updatedAt := monitor.updatedAt;
    }

    method Observe(observation: RemoteObservation, now: Instant) returns (r: Result<MonitorOutcome, MonitoringError>)
      modifies this
      ensures r.Ok? <==> CanObserve(old(Value()), observation)
      ensures r.Ok? ==> Value() == Observed(old(Value()), observation, now) && r.value == OutcomeOf(Value())
      ensures r.Err? ==> Value() == old(Value())
    {
      if state.IsTerminal() {
        return Err(Terminal);
      }
      if !ValidSha(observation.headSha) || !ValidSha(observation.baseSha) {
        return Err(InvalidSha);
      }
      if attemptCount < U32_MAX {
        attemptCount := attemptCount + 1;
      }
      latestObservation := Some(observation);
      updatedAt := now;
      assert Value() == Counted(old(Value()), observation, now);

      if !observation.networkAvailable {
        var retry := Schedule(now);
        return Ok(retry);
      }
      if observation.rateLimitedUntil.Some? && observation.rateLimitedUntil.value > now {
        state := MonitorState.Pending;
        nextAttemptAt := Some(observation.rateLimitedUntil.value);
        return Ok(MonitorOutcome(state, false));
      }
      if !observation.repositoryAccessible {
        var lost := Block();
        return Ok(lost);
      }
      if observation.headSha != expectedHeadSha {
        var moved := Block();
        return Ok(moved);
      }
      if observation.baseSha != expectedBaseSha {
        var moved := Block();
        return Ok(moved);
      }
      var outcome := JudgeMergeability(observation, now);
      return Ok(outcome);
    }

    /** The verdict on an accessible pull request at the expected identity. */
    method JudgeMergeability(observation: RemoteObservation, now: Instant) returns (outcome: MonitorOutcome)
      requires observation.networkAvailable && observation.repositoryAccessible && SameIdentity(Value(), observation)
      requires !(observation.rateLimitedUntil.Some? && observation.rateLimitedUntil.value > now)
      modifies this
      ensures Value() == Judged(old(Value()), VerdictOn(old(Value()), observation, now), now)
      ensures outcome == OutcomeOf(Value())
    {
      match observation.mergeability {
        case Conflicting =>
          var conflicting := Block();
          return conflicting;
        case InaccessibleFork =>
          var inaccessible := Block();
          return inaccessible;
        case Unknown =>
          var retry := Schedule(now);
          return retry;
        case Mergeable =>
      }
      if observation.ci.Failure? || observation.review.ChangesRequested? || observation.review.ApprovalDismissed? {
        if repairIteration >= repairBudget {
          var exhausted := Block();
          return exhausted;
        }
        repairIteration := repairIteration + 1;
        state := RepairNeeded;
        nextAttemptAt := None;
        return MonitorOutcome(state, true);
      }
      if observation.ci.Success? && observation.review.Approved? {
        state := Succeeded;
        nextAttemptAt := None;
        return MonitorOutcome(state, false);
      }
      var retry := Schedule(now);
      return retry;
    }

    method Wake(now: Instant) returns (changed: bool)
      modifies this
      ensures changed <==> old(state).Pending?
      ensures Value() == Woken(old(Value()), now)
    {
      if !state.Pending? {
        return false;
      }
      nextAttemptAt := Some(now);
      updatedAt := now;
      return true;
    }

    method Cancel(now: Instant) returns (changed: bool)
      modifies this
      ensures changed <==> !old(state).IsTerminal()
      ensures Value() == CancelledBy(old(Value()), now)
    {
      if state.IsTerminal() {
        return false;
      }
      state := Cancelled;
      nextAttemptAt := None;
      updatedAt := now;
      return true;
    }

    method Schedule(now: Instant) returns (outcome: MonitorOutcome)
      modifies this`state, this`nextAttemptAt
      ensures outcome == MonitorOutcome(MonitorState.Pending, false)
      ensures Value() == old(Value()).(state := MonitorState.Pending,
                                       nextAttemptAt := Some(now + DelaySeconds(id, attemptCount) * NANOS_PER_SECOND))
    {
      var exponent := Min(if attemptCount == 0 then 0 else attemptCount - 1, 5);
      var backoff := Min(INITIAL_BACKOFF_SECONDS * Pow2(exponent), MAX_BACKOFF_SECONDS);
      var jitter := Xor(id, attemptCount) % 11;
      state := MonitorState.Pending;
      nextAttemptAt := Some(now + (backoff + jitter) * NANOS_PER_SECOND);
      outcome := MonitorOutcome(state, false);
    }

    method Block() returns (outcome: MonitorOutcome)
      modifies this`state, this`nextAttemptAt
      ensures outcome == MonitorOutcome(Blocked, true)
      ensures Value() == old(Value()).(state := Blocked, nextAttemptAt := None)
    {
      state := Blocked;
      nextAttemptAt := None;
      outcome := MonitorOutcome(state, true);
    }
  }

  predicate CanStart(repositoryFullName: string, pullRequestNumber: nat, headSha: Sha, baseSha: Sha, repairBudget: nat) {
    && ValidRepositoryName(repositoryFullName) && pullRequestNumber != 0
    && ValidSha(headSha) && ValidSha(baseSha) && repairBudget != 0
  }

  function NewMonitor(id: MonitorId, taskId: TaskId, repositoryFullName: string, pullRequestNumber: nat,
                      headSha: Sha, baseSha: Sha, now: Instant, repairBudget: nat): Monitor
  {
    Monitor(id, taskId, repositoryFullName, pullRequestNumber, headSha, baseSha, MonitorState.Pending, 0, 0,
            repairBudget, Some(now), None, now, now)
  }

  // ----- Every run of one monitor -----

  datatype MonitorCall =
    | Observe(observation: RemoteObservation, at: Instant)
    | Wake(at: Instant)
    | Cancel(at: Instant)

  function AfterCall(monitor: Monitor, call: MonitorCall): Monitor {
    match call
    case Observe(observation, at) => if CanObserve(monitor, observation) then Observed(monitor, observation, at) else monitor
    case Wake(at) => Woken(monitor, at)
    case Cancel(at) => CancelledBy(monitor, at)
  }

  function AfterCalls(monitor: Monitor, calls: seq<MonitorCall>): Monitor {
    if calls == [] then monitor
    else AfterCall(AfterCalls(monitor, calls[..|calls| - 1]), Last(calls))
  }

  /** How many calls of the run were answered with a repair outcome. */
  function RepairsAnswered(monitor: Monitor, calls: seq<MonitorCall>): nat {
    if calls == [] then 0
    else
      var before := AfterCalls(monitor, calls[..|calls| - 1]);
      RepairsAnswered(monitor, calls[..|calls| - 1]) +
      if Last(calls).Observe? && CanObserve(before, Last(calls).observation)
         && Observed(before, Last(calls).observation, Last(calls).at).state.RepairNeeded? then 1 else 0
  }

  predicate Sound(monitor: Monitor) {
    && monitor.repairIteration <= monitor.repairBudget
    && monitor.attemptCount <= U32_MAX
    && (monitor.nextAttemptAt.Some? <==> monitor.state.Pending?)
    && (monitor.state.Succeeded? ==> ProvesGreen(monitor))
  }

  /** The stored evidence of a monitor that succeeded. */
  predicate ProvesGreen(monitor: Monitor) {
    && monitor.state.Succeeded?
    && monitor.latestObservation.Some?
    && SameIdentity(monitor, monitor.latestObservation.value)
    && IsGreen(monitor.latestObservation.value)
  }

  predicate SameTarget(a: Monitor, b: Monitor) {
    && a.id == b.id && a.taskId == b.taskId && a.repositoryFullName == b.repositoryFullName
    && a.pullRequestNumber == b.pullRequestNumber && a.expectedHeadSha == b.expectedHeadSha
    && a.expectedBaseSha == b.expectedBaseSha && a.repairBudget == b.repairBudget
  }

  lemma CallKeepsSound(monitor: Monitor, call: MonitorCall)
    requires Sound(monitor)
    ensures Sound(AfterCall(monitor, call)) && SameTarget(monitor, AfterCall(monitor, call))
    ensures monitor.state.IsTerminal() ==> AfterCall(monitor, call) == monitor
  {
  }

  /** Over every run of a fresh monitor: the repair outcomes number exactly the repair iterations and
      never exceed the budget, an attempt is scheduled exactly while the monitor is pending, and
      success is always backed by a green observation of the expected SHAs. */
  lemma {:induction false} MonitorLifetime(monitor: Monitor, calls: seq<MonitorCall>)
    requires Sound(monitor) && monitor.repairIteration == 0
    ensures var after := AfterCalls(monitor, calls);
            && Sound(after) && SameTarget(monitor, after)
            && after.repairIteration == RepairsAnswered(monitor, calls) <= monitor.repairBudget
  {
    if calls != [] {
      var front := calls[..|calls| - 1];
      MonitorLifetime(monitor, front);
      CallKeepsSound(AfterCalls(monitor, front), Last(calls));
    }
  }

  /** Once terminal, a monitor never changes again, whatever is asked of it. */
  lemma {:induction false} TerminalStatesAbsorb(monitor: Monitor, calls: seq<MonitorCall>)
    requires monitor.state.IsTerminal()
    ensures AfterCalls(monitor, calls) == monitor
  {
    if calls != [] {
      TerminalStatesAbsorb(monitor, calls[..|calls| - 1]);
    }
  }

  lemma {:induction false} Pow2UpToFive(n: nat)
    requires n <= 5
    ensures 1 <= Pow2(n) <= 32
  {
    Pow2Monotone(n, 5);
    assert Pow2(5) == 2 * Pow2(4) == 4 * Pow2(3) == 8 * Pow2(2) == 16 * Pow2(1) == 32;
  }

  lemma {:induction false} Pow2Monotone(n: nat, m: nat)
    requires n <= m
    ensures 1 <= Pow2(n) <= Pow2(m)
  {
    if n < m {
      Pow2Monotone(n, m - 1);
    } else if n > 0 {
      Pow2Monotone(n - 1, n - 1);
    }
  }

  /** Every backoff lies within 30 and 910 seconds, for every attempt count including the saturated one. */
  lemma DelayIsBounded(id: MonitorId, attempts: nat)
    ensures 30 <= DelaySeconds(id, attempts) <= 910
  {
    Pow2UpToFive(Min(if attempts == 0 then 0 else attempts - 1, 5));
  }

  /** The backoff is 30 seconds, doubles with every attempt up to the sixth, and stays at 900; the jitter
      mixes the monitor's identity with the attempt and adds at most ten seconds. */
  lemma DelayDoubles(id: MonitorId, attempts: nat)
    ensures var backoff := if attempts <= 1 then 30 else if attempts == 2 then 60 else if attempts == 3 then 120
                           else if attempts == 4 then 240 else if attempts == 5 then 480 else 900;
            DelaySeconds(id, attempts) == backoff + Xor(id, attempts) % 11
  {
    assert Pow2(0) == 1 && Pow2(1) == 2 * Pow2(0) && Pow2(2) == 2 * Pow2(1);
    assert Pow2(3) == 2 * Pow2(2) && Pow2(4) == 2 * Pow2(3) && Pow2(5) == 2 * Pow2(4);
  }

  /** The mix is the exclusive or, bit by bit. */
  lemma {:induction false} XorIsBitwise(a: nat, b: nat)
    ensures Xor(a, b) == 2 * Xor(a / 2, b / 2) + (if a % 2 == b % 2 then 0 else 1)
  {
    if a == 0 || b == 0 {
      assert Xor(a, b) == a + b && Xor(a / 2, b / 2) == a / 2 + b / 2;
    }
  }

  /** What an observation does to a monitor, from the observation's own fields: transient trouble waits;
      lost access, other SHAs, conflicts and foreign forks block; unknown mergeability waits; failing CI and
      requested changes ask for a repair while the budget lasts and block afterwards; passing and approved
      succeeds; anything else waits. */
  lemma ObservedState(monitor: Monitor, o: RemoteObservation, now: Instant)
    ensures var limited := o.rateLimitedUntil.Some? && now < o.rateLimitedUntil.value;
            var state := Observed(monitor, o, now).state;
            if !o.networkAvailable || limited then state == MonitorState.Pending
            else if !o.repositoryAccessible || o.headSha != monitor.expectedHeadSha || o.baseSha != monitor.expectedBaseSha
              then state == Blocked
            else if o.mergeability == Conflicting || o.mergeability == InaccessibleFork then state == Blocked
            else if o.mergeability == Unknown then state == MonitorState.Pending
            else if o.ci == Failure || o.review == ChangesRequested || o.review == ApprovalDismissed then
              state == (if monitor.repairIteration < monitor.repairBudget then RepairNeeded else Blocked)
            else if o.ci == Success && o.review == Approved then state == Succeeded
            else state == MonitorState.Pending
    ensures Observed(monitor, o, now).attemptCount == Min(monitor.attemptCount + 1, U32_MAX) || monitor.attemptCount > U32_MAX
    ensures Observed(monitor, o, now).latestObservation == Some(o) && Observed(monitor, o, now).updatedAt == now
    ensures o.networkAvailable && o.rateLimitedUntil.Some? && now < o.rateLimitedUntil.value ==>
              Observed(monitor, o, now).nextAttemptAt == o.rateLimitedUntil
  {
  }

  /** An observation asks for approvals to be invalidated exactly when it blocks or needs a repair,
      and it succeeds exactly on green evidence for the expected SHAs that no transient trouble hides. */
  lemma ObservationOutcome(monitor: Monitor, observation: RemoteObservation, now: Instant)
    requires CanObserve(monitor, observation)
    ensures var after := Observed(monitor, observation, now);
            && (OutcomeOf(after).invalidateApprovals <==> after.state in {Blocked, RepairNeeded})
            && (after.state.Succeeded? <==>
                  && observation.networkAvailable && observation.repositoryAccessible
                  && !(observation.rateLimitedUntil.Some? && now < observation.rateLimitedUntil.value)
                  && SameIdentity(monitor, observation) && IsGreen(observation))
            && (after.repairIteration == monitor.repairIteration + if after.state.RepairNeeded? then 1 else 0)
  {
  }
}
