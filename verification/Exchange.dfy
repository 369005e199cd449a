/** One request to the engine: install, attach, timeout and any number of finishes race under a lock.
    What each leaves to do is done after the lock is released, so it interleaves with everything else. */
module Exchange {
  import opened Base

  datatype Reply = Received(data: string) | Failed(reason: string)

  type ContinuationId = nat
  type ConnectionId = nat
  type TimerId = nat

  datatype Effect =
    | Resume(continuation: ContinuationId, reply: Reply)
    | CancelConnection(connection: ConnectionId)
    | CancelTimer(timer: TimerId)

  datatype Op = Op(
    continuation: Option<ContinuationId>,
    connection: Option<ConnectionId>,
    timeoutTask: Option<TimerId>,
    pendingResult: Option<Reply>,
    finished: bool)

  /** What a lock section leaves: the state, and the effects of its thread after the unlock. */
  datatype Section = Section(op: Op, effects: seq<Effect>)

  function AfterInstall(op: Op, continuation: ContinuationId): Section {
    if op.pendingResult.Some? then Section(op, [Resume(continuation, op.pendingResult.value)])
    else Section(op.(continuation := Some(continuation)), [])
  }

  function AfterAttach(op: Op, connection: ConnectionId): Section {
    if op.finished then Section(op, [CancelConnection(connection)])
    else Section(op.(connection := Some(connection)), [])
  }

  function AfterAttachTimer(op: Op, timer: TimerId): Section {
    if op.finished then Section(op, [CancelTimer(timer)])
    else Section(op.(timeoutTask := Some(timer)), [])
  }

  function AfterFinish(op: Op, reply: Reply): Section {
    if op.finished then Section(op, [])
    else
      Section(
        Op(None, None, None, if op.continuation.None? then Some(reply) else op.pendingResult, true),
        TimerEffects(op) + ConnectionEffects(op) + ContinuationEffects(op, reply))
  }

  function TimerEffects(op: Op): seq<Effect> {
    if op.timeoutTask.Some? then [CancelTimer(op.timeoutTask.value)] else []
  }

  function ConnectionEffects(op: Op): seq<Effect> {
    if op.connection.Some? then [CancelConnection(op.connection.value)] else []
  }

  function ContinuationEffects(op: Op, reply: Reply): seq<Effect> {
    if op.continuation.Some? then [Resume(op.continuation.value, reply)] else []
  }

  class EngineExchangeOperation {
    var continuation: Option<ContinuationId>
    var connection: Option<ConnectionId>
    var timeoutTask: Option<TimerId>
    var pendingResult: Option<Reply>
    var finished: bool

    function State(): Op
      reads this
    {
      Op(continuation, connection, timeoutTask, pendingResult, finished)
    }

    constructor ()
      ensures State() == Op(None, None, None, None, false)
    {
      continuation, connection, timeoutTask, pendingResult, finished := None, None, None, None, false;
    }

    method Install(c: ContinuationId) returns (effects: seq<Effect>)
      modifies this
      ensures Section(State(), effects) == AfterInstall(old(State()), c)
    {
      if pendingResult.Some? {
        return [Resume(c, pendingResult.value)];
      }
      continuation := Some(c);
      return [];
    }

    method Attach(c: ConnectionId) returns (attached: bool, effects: seq<Effect>)
      modifies this
      ensures Section(State(), effects) == AfterAttach(old(State()), c)
      ensures attached <==> !old(finished)
    {
      if finished {
        return false, [CancelConnection(c)];
      }
      connection := Some(c);
      return true, [];
    }

    method AttachTimeoutTask(t: TimerId) returns (effects: seq<Effect>)
      modifies this
      ensures Section(State(), effects) == AfterAttachTimer(old(State()), t)
    {
      if finished {
        return [CancelTimer(t)];
      }
      timeoutTask := Some(t);
      return [];
    }

    method Finish(reply: Reply) returns (effects: seq<Effect>)
      modifies this
      ensures Section(State(), effects) == AfterFinish(old(State()), reply)
    {
      if finished {
        return [];
      }
      finished := true;
      var resumed, closed, timer := continuation, connection, timeoutTask;
      continuation, connection, timeoutTask := None, None, None;
      if resumed.None? {
        pendingResult := Some(reply);
      }
      effects := [];
      if timer.Some? {
        effects := effects + [CancelTimer(timer.value)];
      }
      if closed.Some? {
        effects := effects + [CancelConnection(closed.value)];
      }
      if resumed.Some? {
        effects := effects + [Resume(resumed.value, reply)];
      }
    }
  }

  // ----- All interleavings -----

  /** Effects that are owed, effects that were performed, and a history of the calls. One exchange
      installs one continuation and attaches at most one connection and one timer. */
  datatype Sys = Sys(op: Op, owed: multiset<Effect>, done: seq<Effect>,
                     installed: Option<ContinuationId>, attached: Option<ConnectionId>, timed: Option<TimerId>,
                     replies: seq<Reply>)

  const INITIAL: Sys := Sys(Op(None, None, None, None, false), multiset{}, [], None, None, None, [])

  datatype Step =
    | Install(continuation: ContinuationId)
    | Attach(connection: ConnectionId)
    | AttachTimer(timer: TimerId)
    | Finish(reply: Reply)
    | Perform(effect: Effect)

  function Owing(s: Sys, section: Section): Sys {
    s.(op := section.op, owed := s.owed + multiset(section.effects))
  }

  function Apply(s: Sys, step: Step): Sys {
    match step
    case Install(c) => if s.installed.Some? then s else Owing(s, AfterInstall(s.op, c)).(installed := Some(c))
    case Attach(c) => if s.attached.Some? then s else Owing(s, AfterAttach(s.op, c)).(attached := Some(c))
    case AttachTimer(t) => if s.timed.Some? then s else Owing(s, AfterAttachTimer(s.op, t)).(timed := Some(t))
    case Finish(reply) => Owing(s, AfterFinish(s.op, reply)).(replies := s.replies + [reply])
    case Perform(effect) =>
      if effect !in s.owed then s else s.(owed := s.owed - multiset{effect}, done := s.done + [effect])
  }

  function Run(steps: seq<Step>): Sys {
    if steps == [] then INITIAL else Apply(Run(steps[..|steps| - 1]), Last(steps))
  }

  /** How often an effect is owed or was performed. */
  function Count(s: Sys, effect: Effect): nat {
    s.owed[effect] + multiset(s.done)[effect]
  }

  /** What the calls so far entitle everyone to. */
  function Due(s: Sys, effect: Effect): nat {
    if s.replies == [] then 0
    else match effect
      case Resume(c, reply) => if s.installed == Some(c) && reply == s.replies[0] then 1 else 0
      case CancelConnection(c) => if s.attached == Some(c) then 1 else 0
      case CancelTimer(t) => if s.timed == Some(t) then 1 else 0
  }

  ghost predicate OpInv(s: Sys) {
    if s.replies == [] then s.op == Op(s.installed, s.attached, s.timed, None, false)
    else
      && s.op.finished && s.op.continuation.None? && s.op.connection.None? && s.op.timeoutTask.None?
      && (s.installed.None? ==> s.op.pendingResult == Some(s.replies[0]))
  }

  /** Owed and performed effects together are exactly the due ones. */
  ghost predicate Inv(s: Sys) {
    && OpInv(s)
    && (s.op.pendingResult.Some? ==> s.replies != [] && s.op.pendingResult.value == s.replies[0])
    && forall effect :: Count(s, effect) == Due(s, effect)
  }

  lemma FinishKeepsInv(s: Sys, reply: Reply)
    requires Inv(s)
    ensures Inv(Apply(s, Finish(reply)))
  {
    var t, effects := Apply(s, Finish(reply)), AfterFinish(s.op, reply).effects;
    forall effect
      ensures Count(t, effect) == Due(t, effect)
    {
      assert Count(s, effect) == Due(s, effect);
      FinishOwes(s.op, reply, effect);
    }
  }

  /** The first finish owes each party its one effect; later ones owe nothing. */
  lemma FinishOwes(op: Op, reply: Reply, effect: Effect)
    ensures var owed := multiset(AfterFinish(op, reply).effects)[effect];
            if op.finished then owed == 0
            else match effect
              case Resume(c, r) => owed == (if op.continuation == Some(c) && r == reply then 1 else 0)
              case CancelConnection(c) => owed == (if op.connection == Some(c) then 1 else 0)
              case CancelTimer(t) => owed == (if op.timeoutTask == Some(t) then 1 else 0)
  {
    var timer, close, resume := TimerEffects(op), ConnectionEffects(op), ContinuationEffects(op, reply);
    assert multiset(timer + close + resume) == multiset(timer) + multiset(close) + multiset(resume);
    assert multiset(timer)[effect] == if op.timeoutTask.Some? && effect == CancelTimer(op.timeoutTask.value) then 1 else 0;
    assert multiset(close)[effect] == if op.connection.Some? && effect == CancelConnection(op.connection.value) then 1 else 0;
  }

  lemma PerformKeepsInv(s: Sys, performed: Effect)
    requires Inv(s)
    ensures Inv(Apply(s, Perform(performed)))
  {
    var t := Apply(s, Perform(performed));
    forall effect
      ensures Count(t, effect) == Due(t, effect)
    {
      assert Count(s, effect) == Due(s, effect);
    }
  }

  lemma InstallKeepsInv(s: Sys, c: ContinuationId)
    requires Inv(s)
    ensures Inv(Apply(s, Install(c)))
  {
    var t := Apply(s, Install(c));
    forall effect
      ensures Count(t, effect) == Due(t, effect)
    {
      assert Count(s, effect) == Due(s, effect);
    }
  }

  lemma AttachKeepsInv(s: Sys, c: ConnectionId)
    requires Inv(s)
    ensures Inv(Apply(s, Attach(c)))
  {
    var t := Apply(s, Attach(c));
    forall effect
      ensures Count(t, effect) == Due(t, effect)
    {
      assert Count(s, effect) == Due(s, effect);
    }
  }

  lemma AttachTimerKeepsInv(s: Sys, t: TimerId)
    requires Inv(s)
    ensures Inv(Apply(s, AttachTimer(t)))
  {
    var after := Apply(s, AttachTimer(t));
    forall effect
      ensures Count(after, effect) == Due(after, effect)
    {
      assert Count(s, effect) == Due(s, effect);
    }
  }

  lemma StepKeepsInv(s: Sys, step: Step)
    requires Inv(s)
    ensures Inv(Apply(s, step))
  {
    match step
    case Install(c) => InstallKeepsInv(s, c);
    case Attach(c) => AttachKeepsInv(s, c);
    case AttachTimer(t) => AttachTimerKeepsInv(s, t);
    case Finish(reply) => FinishKeepsInv(s, reply);
    case Perform(effect) => PerformKeepsInv(s, effect);
  }

  lemma {:induction false} RunKeepsInv(steps: seq<Step>)
    ensures Inv(Run(steps))
  {
    if steps != [] {
      RunKeepsInv(steps[..|steps| - 1]);
      StepKeepsInv(Run(steps[..|steps| - 1]), Last(steps));
    }
  }

  lemma {:induction false} CountAtLeast(done: seq<Effect>, i: nat, j: nat)
    requires i < j < |done| && done[i] == done[j]
    ensures multiset(done)[done[i]] >= 2
  {
    var front := done[..j];
    assert done == front + done[j..];
    assert done[i] == front[i] && done[i] in multiset(front);
    assert done[j..][0] == done[j] && done[j] in multiset(done[j..]);
    assert multiset(done) == multiset(front) + multiset(done[j..]);
  }

  /** Whatever the interleaving, the continuation is resumed at most once, never before it is installed
      and a finish came, and then with the reply of the first finish. */
  lemma ResumesAtMostOnce(steps: seq<Step>, i: nat, j: nat)
    requires var done := Run(steps).done; i < |done| && j < |done| && done[i].Resume? && done[j].Resume?
    ensures i == j
    ensures var s := Run(steps); s.replies != [] && s.installed.Some? && s.done[i] == Resume(s.installed.value, s.replies[0])
  {
    RunKeepsInv(steps);
    var s := Run(steps);
    assert Count(s, s.done[i]) == Due(s, s.done[i]) && Count(s, s.done[j]) == Due(s, s.done[j]);
    assert s.done[i] in multiset(s.done) && s.done[j] in multiset(s.done);
    if i < j {
      CountAtLeast(s.done, i, j);
    } else if j < i {
      CountAtLeast(s.done, j, i);
    }
  }

  /** Once no effect is owed, an installed and finished exchange has been resumed with the first reply,
      and everything ever attached to a finished exchange has been cancelled, exactly once. */
  lemma FinishedExchangesSettle(steps: seq<Step>)
    requires Run(steps).owed == multiset{} && Run(steps).replies != []
    ensures var s := Run(steps);
            && (s.installed.Some? ==> multiset(s.done)[Resume(s.installed.value, s.replies[0])] == 1)
            && (s.attached.Some? ==> multiset(s.done)[CancelConnection(s.attached.value)] == 1)
            && (s.timed.Some? ==> multiset(s.done)[CancelTimer(s.timed.value)] == 1)
  {
    RunKeepsInv(steps);
    var s := Run(steps);
    if s.installed.Some? {
      assert Count(s, Resume(s.installed.value, s.replies[0])) == 1;
    }
    if s.attached.Some? {
      assert Count(s, CancelConnection(s.attached.value)) == 1;
    }
    if s.timed.Some? {
      assert Count(s, CancelTimer(s.timed.value)) == 1;
    }
  }
}
