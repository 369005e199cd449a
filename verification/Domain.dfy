/** The task lifecycle: its states, the legal edges, and the operations that move one task along them. */
module Domain {
  import opened Base
  import opened Sources

  datatype TaskState =
    | Discovered | Assessing | Planned | AwaitingPreparationApproval | Preparing | Implementing
    | Verifying | Reviewing | AwaitingDeliveryApproval | Delivering | Monitoring
    | AwaitingMergeApproval | Merging | Paused | Blocked | Completed | Failed | Cancelled
  {
    predicate Permits(next: TaskState) {
      match this
      case Discovered => next == Assessing
      case Assessing => next == Planned
      case Planned => next == AwaitingPreparationApproval
      case AwaitingPreparationApproval => next == Preparing
      case Preparing => next == Implementing
      case Implementing => next == Verifying
      case Verifying => next == Reviewing
      case Reviewing => next == AwaitingDeliveryApproval
      case AwaitingDeliveryApproval => next == Delivering
      case Delivering => next == Monitoring
      case Monitoring => next == Completed || next == AwaitingMergeApproval
      case Merging => next == Completed || next == AwaitingMergeApproval
      case AwaitingMergeApproval => next == Merging
      case _ => false
    }

    predicate IsTerminal() { Completed? || Failed? || Cancelled? }

    predicate IsInterruption() { Paused? || Blocked? || Failed? || Cancelled? }

    predicate IsRecoverableInterruption() { Paused? || Blocked? }
  }

  datatype Interruption = Interruption(state: TaskState, resumeState: TaskState, reason: string)

  datatype Task = Task(
    id: TaskId,
    title: string,
    repositoryPath: string,
    state: TaskState,
    createdAt: Instant,
    updatedAt: Instant,
    interruption: Option<Interruption>,
    source: TaskSource,
    bindingId: Option<BindingId>,
    contractVersion: nat,
    checkpointId: Option<CheckpointId>)

  datatype ValidationError =
    | InvalidTransition(from: TaskState, to: TaskState)
    | EmptyInterruptionReason
    | InvalidInterruptionState(state: TaskState)

  /** The task after one lifecycle edge; the edge itself is checked by the caller. */
  function Moved(task: Task, next: TaskState, now: Instant): Task {
    task.(state := next, updatedAt := now)
  }

  /** A mutable task as the handlers hold it between loading and saving. */
  class TaskRecord {
    const id: TaskId
    const title: string
    const createdAt: Instant
    const source: TaskSource
    const bindingId: Option<BindingId>
    var repositoryPath: string
    var state: TaskState
    var updatedAt: Instant
    var interruption: Option<Interruption>
    var contractVersion: nat
    var checkpointId: Option<CheckpointId>

    function Value(): Task
      reads this
    {
      Task(id, title, repositoryPath, state, createdAt, updatedAt, interruption, source, bindingId,
           contractVersion, checkpointId)
    }

    constructor (task: Task)
      ensures Value() == task
    {
      id, title, createdAt := task.id, task.title, task.createdAt;
      source, bindingId := task.source, task.bindingId;
      repositoryPath, state, updatedAt := task.repositoryPath, task.state, task.updatedAt;
      interruption, contractVersion := task.interruption, task.contractVersion;
      checkpointId := task.checkpointId;
    }

    method Transition(next: TaskState, now: Instant) returns (r: Result<(), ValidationError>)
      modifies this
      ensures r.Ok? <==> old(state).Permits(next)
      ensures r.Ok? ==> Value() == Moved(old(Value()), next, now)
      ensures r.Err? ==> Value() == old(Value()) && r.error == InvalidTransition(old(state), next)
    {
      if !state.Permits(next) {
        return Err(InvalidTransition(state, next));
      }
      state := next;
      updatedAt := now;
      return Ok(());
    }

    method Interrupt(next: TaskState, reason: string, now: Instant) returns (r: Result<(), ValidationError>)
      modifies this
      ensures r.Ok? <==> CanInterrupt(old(Value()), next, reason)
      ensures r.Ok? ==> Value() == Interrupted(old(Value()), next, reason, now)
      ensures r.Err? ==> Value() == old(Value())
    {
      if !next.IsInterruption() {
        return Err(InvalidInterruptionState(next));
      }
      if state.IsTerminal() || state.IsInterruption() {
        return Err(InvalidTransition(state, next));
      }
      if reason == "" {
        return Err(EmptyInterruptionReason);
      }
      var resumeState := state;
      state := next;
      interruption := Some(Interruption(next, resumeState, reason));
      updatedAt := now;
      return Ok(());
    }

    method Resume(now: Instant) returns (r: Result<(), ValidationError>)
      modifies this
      ensures r.Ok? <==> CanResume(old(Value()))
      ensures r.Ok? ==> Value() == Resumed(old(Value()), now)
      ensures r.Err? ==> Value() == old(Value())
    {
      if interruption.None? {
        return Err(InvalidTransition(state, state));
      }
      var recorded := interruption.value;
      if !state.IsRecoverableInterruption() || recorded.state != state {
        return Err(InvalidTransition(state, recorded.resumeState));
      }
      state := recorded.resumeState;
      interruption := None;
      updatedAt := now;
      return Ok(());
    }
  }

  predicate CanInterrupt(task: Task, next: TaskState, reason: string) {
    next.IsInterruption() && !task.state.IsTerminal() && !task.state.IsInterruption() && reason != ""
  }

  function Interrupted(task: Task, next: TaskState, reason: string, now: Instant): Task {
    task.(state := next, interruption := Some(Interruption(next, task.state, reason)), updatedAt := now)
  }

  predicate CanResume(task: Task) {
    task.interruption.Some? && task.state.IsRecoverableInterruption() && task.interruption.value.state == task.state
  }

  function Resumed(task: Task, now: Instant): Task
    requires CanResume(task)
  {
    task.(state := task.interruption.value.resumeState, interruption := None, updatedAt := now)
  }

  /** Pausing or blocking can always be undone, and undoing it restores everything but the clock reading;
      failing or cancelling never can. */
  lemma InterruptResumeRoundTrip(task: Task, next: TaskState, reason: string, at: Instant, later: Instant)
    requires CanInterrupt(task, next, reason) && task.interruption.None?
    ensures CanResume(Interrupted(task, next, reason, at)) <==> next == Paused || next == Blocked
    ensures next == Paused || next == Blocked ==>
              Resumed(Interrupted(task, next, reason, at), later) == task.(updatedAt := later)
  {
  }
}
