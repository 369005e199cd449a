/** Durable jobs: compare-and-set transitions with an append-only event log. */
module Jobs {
  import opened Base

  type JobId = nat

  datatype JobKind = GitHubSync | TaskExecution | GitHubDelivery | Merge
  datatype CancellationState = NotRequested | Requested | Acknowledged
  datatype JobCheckpoint = JobCheckpoint(sequence: nat, kind: string, summary: string, recordedAt: Instant)

  datatype JobState = Queued | Running | Cancelling | Cancelled | Succeeded | Failed | Interrupted
  {
    predicate Permits(next: JobState) {
      match this
      case Queued => next in {Running, Cancelled, Failed}
      case Running => next in {Cancelling, Succeeded, Failed, Interrupted}
      case Cancelling => next in {Cancelled, Succeeded, Failed, Interrupted}
      case Interrupted => next in {Queued, Cancelled, Failed}
      case _ => false
    }

    /** States that only a live process can be in. */
    predicate IsActive() { Running? || Cancelling? }
  }

  /** A summary that a caller gave, or the fixed one that recovery writes. */
  datatype Summary = Given(text: string) | EngineRestarted

  datatype Job = Job(
    id: JobId,
    kind: JobKind,
    taskId: Option<TaskId>,
    state: JobState,
    cancellation: CancellationState,
    summary: Summary,
    checkpoint: Option<JobCheckpoint>,
    createdAt: Instant,
    updatedAt: Instant,
    generation: nat)

  datatype JobEvent = JobEvent(state: JobState, summary: Summary, checkpoint: Option<JobCheckpoint>, occurredAt: Instant)

  datatype Tables = Tables(jobs: map<JobId, Job>, events: map<JobId, seq<JobEvent>>)

  function NewJob(id: JobId, kind: JobKind, taskId: Option<TaskId>, summary: string, now: Instant): Job {
    Job(id, kind, taskId, Queued, NotRequested, Given(summary), None, now, now, 0)
  }

  function EventOf(job: Job): JobEvent {
    JobEvent(job.state, job.summary, job.checkpoint, job.updatedAt)
  }

  function Log(events: map<JobId, seq<JobEvent>>, id: JobId): seq<JobEvent> {
    if id in events then events[id] else []
  }

  /** A row and its event, written together. */
  function Written(t: Tables, job: Job): Tables {
    Tables(t.jobs[job.id := job], t.events[job.id := Log(t.events, job.id) + [EventOf(job)]])
  }

  function Next(job: Job, next: JobState, cancellation: CancellationState, summary: string,
                checkpoint: Option<JobCheckpoint>, now: Instant): Job
  {
    job.(state := next, cancellation := cancellation, summary := Given(summary),
         checkpoint := if checkpoint.Some? then checkpoint else job.checkpoint,
         updatedAt := now, generation := job.generation + 1)
  }

  function InterruptedJob(job: Job, now: Instant): Job {
    job.(state := Interrupted, summary := EngineRestarted, updatedAt := now, generation := job.generation + 1)
  }

  /** Tables in which the jobs of a set have been interrupted. */
  function InterruptedOnly(t: Tables, done: set<JobId>, now: Instant): Tables {
    Tables(
      map id | id in t.jobs :: if id in done then InterruptedJob(t.jobs[id], now) else t.jobs[id],
      map id | id in t.events ::
        if id in done && id in t.jobs then t.events[id] + [EventOf(InterruptedJob(t.jobs[id], now))] else t.events[id])
  }

  function ActiveJobs(t: Tables): set<JobId> {
    set id | id in t.jobs && t.jobs[id].state.IsActive()
  }

  function Recovered(t: Tables, now: Instant): Tables {
    InterruptedOnly(t, ActiveJobs(t), now)
  }

  lemma InterruptOneMore(t: Tables, done: set<JobId>, id: JobId, now: Instant)
    requires id in t.jobs && id in t.events && id !in done && t.jobs[id].id == id
    ensures Written(InterruptedOnly(t, done, now), InterruptedJob(t.jobs[id], now)) == InterruptedOnly(t, done + {id}, now)
  {
    var written, goal := Written(InterruptedOnly(t, done, now), InterruptedJob(t.jobs[id], now)), InterruptedOnly(t, done + {id}, now);
    assert written.jobs == goal.jobs;
    assert written.events == goal.events;
  }

  datatype JobError = InvalidTransition | InvalidSummary | DuplicateJob

  class JobStore {
    var jobs: map<JobId, Job>
    var events: map<JobId, seq<JobEvent>>

    function Contents(): Tables
      reads this
    {
      Tables(jobs, events)
    }

    ghost predicate Valid()
      reads this
    {
      JobsInv(Contents())
    }

    constructor Open(t: Tables, now: Instant)
      requires JobsInv(t)
      ensures Valid() && Contents() == Recovered(t, now)
    {
      jobs, events := t.jobs, t.events;
      new;
      RecoverInterruptedJobs(now);
      RecoveryKeepsInv(t, now);
    }

    method Write(job: Job)
      modifies this
      ensures Contents() == Written(old(Contents()), job)
    {
      jobs := jobs[job.id := job];
      events := events[job.id := Log(events, job.id) + [EventOf(job)]];
    }

    method CreateJob(job: Job) returns (r: Outcome<JobError>)
      requires Valid() && job.state.Queued? && job.generation == 0
      modifies this
      ensures Valid()
      ensures r.Pass? <==> job.id !in old(jobs)
      ensures r.Pass? ==> Contents() == Written(old(Contents()), job)
      ensures r.Fail? ==> Contents() == old(Contents())
    {
      if job.id in jobs {
        return Fail(DuplicateJob);
      }
      WriteKeepsInv(Contents(), job);
      Write(job);
      return Pass;
    }

    /** Moves a job only from the state the caller expects; a caller that lost the race is told so. */
    method TransitionJob(id: JobId, expected: JobState, next: JobState, cancellation: CancellationState, summary: string,
                         summaryIsValid: bool, checkpoint: Option<JobCheckpoint>, now: Instant)
      returns (r: Result<bool, JobError>)
      requires Valid()
      modifies this
      ensures Valid()
      ensures r.Err? <==> !expected.Permits(next) || !summaryIsValid
      ensures r.Ok? ==> (r.value <==> id in old(jobs) && old(jobs)[id].state == expected)
      ensures r == Ok(true) ==>
                Contents() == Written(old(Contents()), Next(old(jobs)[id], next, cancellation, summary, checkpoint, now))
      ensures r != Ok(true) ==> Contents() == old(Contents())
    {
      if !expected.Permits(next) {
        return Err(InvalidTransition);
      }
      if !summaryIsValid {
        return Err(InvalidSummary);
      }
      if id !in jobs {
        return Ok(false);
      }
      var current := jobs[id];
      if current.state != expected {
        return Ok(false);
      }
      var kept := if checkpoint.Some? then checkpoint else current.checkpoint;
      var moved := current.(state := next, cancellation := cancellation, summary := Given(summary), checkpoint := kept,
                            updatedAt := now, generation := current.generation + 1);
      assert LogFits(id, current, events[id]);
      WriteKeepsInv(Contents(), moved);
      Write(moved);
      return Ok(true);
    }

    /** Interrupts, one by one, every job that a stopped process left running or cancelling. */
    method RecoverInterruptedJobs(now: Instant)
      requires Valid()
      modifies this
      ensures Contents() == Recovered(old(Contents()), now)
    {
      ghost var before := Contents();
      var rest, done := ActiveJobs(Contents()), {};
      NoneInterrupted(before, now);
      while rest != {}
        invariant done + rest == ActiveJobs(before) && done !! rest
        invariant Contents() == InterruptedOnly(before, done, now)
      {
        var id :| id in rest;
        RecoverOne(before, done, id, now);
        MoveOne(ActiveJobs(before), done, rest, id);
        Write(InterruptedJob(jobs[id], now));
        rest, done := rest - {id}, done + {id};
      }
      assert done == ActiveJobs(before);
    }
  }

  lemma MoveOne(all: set<JobId>, done: set<JobId>, rest: set<JobId>, id: JobId)
    requires done + rest == all && done !! rest && id in rest
    ensures (done + {id}) + (rest - {id}) == all && (done + {id}) !! (rest - {id})
  {
  }

  lemma NoneInterrupted(t: Tables, now: Instant)
    ensures InterruptedOnly(t, {}, now) == t
  {
  }

  lemma RecoverOne(t: Tables, done: set<JobId>, id: JobId, now: Instant)
    requires JobsInv(t) && id in ActiveJobs(t) && id !in done
    ensures var partial := InterruptedOnly(t, done, now);
            id in partial.jobs && Written(partial, InterruptedJob(partial.jobs[id], now)) == InterruptedOnly(t, done + {id}, now)
  {
    assert LogFits(id, t.jobs[id], t.events[id]);
    InterruptOneMore(t, done, id, now);
  }

  // ----- The log of a job -----

  /** Generations count events, events walk legal edges from Queued, and the row repeats the last one. */
  ghost predicate LogFits(id: JobId, job: Job, log: seq<JobEvent>) {
    && job.id == id
    && log != [] && log[0].state.Queued?
    && job.generation == |log| - 1
    && Last(log) == EventOf(job)
    && forall i :: 0 < i < |log| ==> log[i - 1].state.Permits(log[i].state)
  }

  ghost predicate JobsInv(t: Tables) {
    && t.jobs.Keys == t.events.Keys
    && forall id :: id in t.jobs ==> LogFits(id, t.jobs[id], t.events[id])
  }

  datatype Step =
    | Create(job: JobId, kind: JobKind, taskId: Option<TaskId>, summary: string, now: Instant)
    | Transition(job: JobId, expected: JobState, next: JobState, cancellation: CancellationState, summary: string,
                 checkpoint: Option<JobCheckpoint>, now: Instant)
    | Reopen(now: Instant)

  /** Whether a transition request wins. */
  predicate Wins(t: Tables, step: Step) {
    && step.Transition? && step.expected.Permits(step.next)
    && step.job in t.jobs && t.jobs[step.job].state == step.expected
  }

  function Apply(t: Tables, step: Step): Tables {
    match step
    case Create(id, kind, taskId, summary, now) => if id in t.jobs then t else Written(t, NewJob(id, kind, taskId, summary, now))
    case Transition(id, _, next, cancellation, summary, checkpoint, now) =>
      if !Wins(t, step) then t else Written(t, Next(t.jobs[id], next, cancellation, summary, checkpoint, now))
    case Reopen(now) => Recovered(t, now)
  }

  function Run(steps: seq<Step>): Tables {
    if steps == [] then Tables(map[], map[]) else Apply(Run(steps[..|steps| - 1]), Last(steps))
  }

  lemma LogGrows(id: JobId, job: Job, log: seq<JobEvent>, next: Job)
    requires LogFits(id, job, log)
    requires next.id == id && job.state.Permits(next.state) && next.generation == job.generation + 1
    ensures LogFits(id, next, log + [EventOf(next)])
  {
  }

  lemma WriteKeepsInv(t: Tables, job: Job)
    requires JobsInv(t)
    requires if job.id in t.jobs then t.jobs[job.id].state.Permits(job.state) && job.generation == t.jobs[job.id].generation + 1
             else job.state.Queued? && job.generation == 0
    ensures JobsInv(Written(t, job))
  {
  }

  lemma RecoveryKeepsInv(t: Tables, now: Instant)
    requires JobsInv(t)
    ensures JobsInv(Recovered(t, now))
  {
    var after := Recovered(t, now);
    forall id | id in after.jobs
      ensures LogFits(id, after.jobs[id], after.events[id])
    {
      assert LogFits(id, t.jobs[id], t.events[id]);
      if t.jobs[id].state.IsActive() {
        LogGrows(id, t.jobs[id], t.events[id], InterruptedJob(t.jobs[id], now));
      }
    }
  }

  lemma {:induction false} RunKeepsInv(steps: seq<Step>)
    ensures JobsInv(Run(steps))
  {
    if steps != [] {
      var before, step := Run(steps[..|steps| - 1]), Last(steps);
      RunKeepsInv(steps[..|steps| - 1]);
      match step
      case Create(id, kind, taskId, summary, now) =>
        if id !in before.jobs { WriteKeepsInv(before, NewJob(id, kind, taskId, summary, now)); }
      case Transition(id, _, next, cancellation, summary, checkpoint, now) =>
        if Wins(before, step) {
          assert LogFits(id, before.jobs[id], before.events[id]);
          WriteKeepsInv(before, Next(before.jobs[id], next, cancellation, summary, checkpoint, now));
        }
      case Reopen(now) => RecoveryKeepsInv(before, now);
    }
  }

  /** Over every run of creations, races and restarts, a job's log is a legal path whose length its
      generation counts and whose last entry its row repeats. */
  lemma JobLogsAreLegal(steps: seq<Step>, id: JobId)
    requires id in Run(steps).jobs
    ensures id in Run(steps).events && LogFits(id, Run(steps).jobs[id], Run(steps).events[id])
  {
    RunKeepsInv(steps);
  }

  /** The moves a job can make. */
  predicate IsMove(before: JobState, after: JobState) {
    || (before == Queued && (after == Running || after == Cancelled || after == Failed))
    || (before == Running && (after == Cancelling || after == Succeeded || after == Failed || after == Interrupted))
    || (before == Cancelling && (after == Cancelled || after == Succeeded || after == Failed || after == Interrupted))
    || (before == Interrupted && (after == Queued || after == Cancelled || after == Failed))
  }

  /** A step leaves a job alone or makes one of those moves; an ended job is never touched again. */
  lemma JobsMoveLegally(steps: seq<Step>, step: Step, id: JobId)
    requires id in Run(steps).jobs
    ensures var before, t := Run(steps).jobs[id], Apply(Run(steps), step);
            && id in t.jobs
            && (t.jobs[id] == before || IsMove(before.state, t.jobs[id].state))
            && (before.state in {Cancelled, Succeeded, Failed} ==> t.jobs[id] == before)
  {
    RunKeepsInv(steps);
    assert LogFits(id, Run(steps).jobs[id], Run(steps).events[id]);
    if Wins(Run(steps), step) {
      assert LogFits(step.job, Run(steps).jobs[step.job], Run(steps).events[step.job]);
    }
  }

  /** The checkpoint of the latest winning transition that supplied one. */
  function LastSupplied(steps: seq<Step>, id: JobId): Option<JobCheckpoint> {
    if steps == [] then None
    else
      var front, step := steps[..|steps| - 1], Last(steps);
      if Wins(Run(front), step) && step.job == id && step.checkpoint.Some? then step.checkpoint
      else LastSupplied(front, id)
  }

  lemma {:induction false} NoJobNoCheckpoint(steps: seq<Step>, id: JobId)
    requires id !in Run(steps).jobs
    ensures LastSupplied(steps, id) == None
  {
    if steps != [] {
      NoJobNoCheckpoint(steps[..|steps| - 1], id);
    }
  }

  /** No transition, lost race or restart ever drops a checkpoint: the row keeps the last one supplied. */
  lemma {:induction false} CheckpointIsTheLastSupplied(steps: seq<Step>, id: JobId)
    requires id in Run(steps).jobs
    ensures Run(steps).jobs[id].checkpoint == LastSupplied(steps, id)
  {
    var front, step := steps[..|steps| - 1], Last(steps);
    RunKeepsInv(front);
    if id in Run(front).jobs {
      CheckpointIsTheLastSupplied(front, id);
      assert LogFits(id, Run(front).jobs[id], Run(front).events[id]);
      if Wins(Run(front), step) {
        assert LogFits(step.job, Run(front).jobs[step.job], Run(front).events[step.job]);
      }
    } else {
      NoJobNoCheckpoint(front, id);
    }
  }

  /** Recovery leaves no job running or cancelling, touches no other job, and repeating it changes nothing. */
  lemma RecoveryIsComplete(t: Tables, now: Instant, later: Instant)
    ensures forall id :: id in Recovered(t, now).jobs ==> !Recovered(t, now).jobs[id].state.IsActive()
    ensures forall id :: id in t.jobs && !t.jobs[id].state.IsActive() ==> Recovered(t, now).jobs[id] == t.jobs[id]
    ensures Recovered(Recovered(t, now), later) == Recovered(t, now)
  {
  }
}
