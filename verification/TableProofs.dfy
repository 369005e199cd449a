/** Which single-table writes keep which part of the invariant. */
module TableProofs {
  import opened Base
  import opened Sources
  import opened Domain
  import opened Contract
  import opened Capabilities
  import opened GitHubActions
  import opened Policy
  import opened Tables
  import opened Protocol
  import opened TimelineProofs
  import opened Invariant
  import M = Monitoring

  /** The written version is a new discovered task, or continues the stored one. */
  ghost predicate Lawful(tasks: map<TaskId, Task>, id: TaskId, task: Task) {
    && task.id == id
    && if id in tasks then SameIdentity(tasks[id], task) && (task.state.Discovered? ==> tasks[id].state.Discovered?)
       else task.state.Discovered?
  }

  // ----- One task row is written -----

  lemma PlannedWrite(tasks: map<TaskId, Task>, contracts: map<TaskId, TaskContract>, id: TaskId, task: Task)
    requires PlannedInv(tasks, contracts) && Lawful(tasks, id, task)
    requires !task.state.Discovered? ==> id in contracts && Fits(task, contracts[id])
    ensures PlannedInv(tasks[id := task], contracts)
  {
  }

  lemma MonitorWrite(tasks: map<TaskId, Task>, monitors: map<MonitorId, MonitorRow>, id: TaskId, task: Task)
    requires MonitorInv(tasks, monitors) && Lawful(tasks, id, task)
    ensures MonitorInv(tasks[id := task], monitors)
  {
  }

  lemma GateWrite(tasks: map<TaskId, Task>, monitors: map<MonitorId, MonitorRow>, gate: map<TaskId, MonitorId>,
                  id: TaskId, task: Task)
    requires GateInv(tasks, monitors, gate)
    requires AtMergeGate(task.state) ==> id in gate
    ensures GateInv(tasks[id := task], monitors, gate)
  {
  }

  lemma DeliveryWrite(tasks: map<TaskId, Task>, deliveries: map<Key, DeliveryRow>, claim: map<TaskId, Key>,
                      id: TaskId, task: Task)
    requires DeliveryInv(tasks, deliveries, claim)
    requires task.state.Merging? ==> HoldsClaim(deliveries, claim, id)
    requires id in tasks && MergingOrCompleted(tasks[id].state) ==> MergingOrCompleted(task.state)
    ensures DeliveryInv(tasks[id := task], deliveries, claim)
  {
  }

  lemma ExecWrite(tasks: map<TaskId, Task>, deliveries: map<Key, DeliveryRow>, execs: map<HandlerId, Exec>,
                  id: TaskId, task: Task)
    requires ExecInv(tasks, deliveries, execs)
    ensures ExecInv(tasks[id := task], deliveries, execs)
  {
  }

  lemma MergeOnceWrite(tasks: map<TaskId, Task>, approvals: map<ApprovalId, ApprovalRow>,
                       gate: map<TaskId, MonitorId>, log: seq<Event>, id: TaskId, task: Task)
    requires MergeOnceInv(tasks, approvals, gate, log) && Lawful(tasks, id, task)
    requires id in tasks && MergingOrCompleted(tasks[id].state) ==> MergingOrCompleted(task.state)
    ensures MergeOnceInv(tasks[id := task], approvals, gate, log)
  {
  }

  lemma PrepWrite(tasks: map<TaskId, Task>, claims: map<ApprovalId, ClaimRow>, preps: map<HandlerId, Prep>,
                  id: TaskId, task: Task)
    requires PrepInv(tasks, claims, preps)
    requires forall h :: h in preps && preps[h].phase.Read? ==> preps[h].preview.taskId != id
    ensures PrepInv(tasks[id := task], claims, preps)
  {
  }

  /** While a preparation has read a task, that task waits for its preparation approval. */
  lemma ReadPreparationWaits(tasks: map<TaskId, Task>, claims: map<ApprovalId, ClaimRow>, preps: map<HandlerId, Prep>,
                             id: TaskId)
    requires PrepInv(tasks, claims, preps)
    requires id in tasks ==> !tasks[id].state.AwaitingPreparationApproval?
    ensures forall h :: h in preps && preps[h].phase.Read? ==> preps[h].preview.taskId != id
  {
  }

  lemma RunsWrite(tasks: map<TaskId, Task>, contracts: map<TaskId, TaskContract>, runs: map<RunId, VerificationRun>,
                  live: set<RunId>, id: TaskId, task: Task)
    requires RunsInv(tasks, contracts, runs, live) && Lawful(tasks, id, task)
    ensures RunsInv(tasks[id := task], contracts, runs, live)
  {
  }

  lemma VerifiedWrite(tasks: map<TaskId, Task>, runs: map<RunId, VerificationRun>, live: set<RunId>,
                      passed: map<TaskId, RunId>, id: TaskId, task: Task)
    requires VerifiedInv(tasks, runs, live, passed)
    requires PastVerification(task.state) <==> id in tasks && PastVerification(tasks[id].state)
    ensures VerifiedInv(tasks[id := task], runs, live, passed)
  {
  }

  lemma VerifiedCommit(tasks: map<TaskId, Task>, runs: map<RunId, VerificationRun>, live: set<RunId>,
                       passed: map<TaskId, RunId>, id: TaskId, task: Task, runId: RunId)
    requires VerifiedInv(tasks, runs, live, passed) && PassedInv(runs, live, id, runId)
    requires PastVerification(task.state)
    ensures VerifiedInv(tasks[id := task], runs, live, passed[id := runId])
  {
  }

  // ----- Approvals -----

  lemma MergeOnceApprovals(tasks: map<TaskId, Task>, approvals: map<ApprovalId, ApprovalRow>,
                           after: map<ApprovalId, ApprovalRow>, gate: map<TaskId, MonitorId>, log: seq<Event>)
    requires MergeOnceInv(tasks, approvals, gate, log)
    requires forall id :: id in approvals ==> id in after && after[id].approval == approvals[id].approval
    requires forall id :: id in approvals && approvals[id].invalidated ==> after[id].invalidated
    ensures MergeOnceInv(tasks, after, gate, log)
  {
  }

  /** A task may leave Merging for its gate once all of its approvals are invalidated. */
  lemma MergeOnceReturn(tasks: map<TaskId, Task>, approvals: map<ApprovalId, ApprovalRow>,
                        gate: map<TaskId, MonitorId>, log: seq<Event>, id: TaskId, task: Task)
    requires MergeOnceInv(tasks, approvals, gate, log) && Lawful(tasks, id, task)
    ensures MergeOnceInv(tasks[id := task], InvalidatedFor(approvals, id), gate, log)
  {
  }

  // ----- The log -----

  lemma StatusAfter(log: seq<Event>, event: Event, key: Key)
    ensures Status(log + [event], key) ==
              match event
              case DeliveryClaimed(k, _, _) => if k == key then Some(DeliveryResult.Pending) else Status(log, key)
              case DeliveryRecorded(k, result) => if k == key then Some(result) else Status(log, key)
              case _ => Status(log, key)
  {
  }

  lemma LegalAppend(log: seq<Event>, event: Event)
    requires LegalLog(log) && LegalNext(log, event)
    ensures LegalLog(log + [event])
  {
    var after := log + [event];
    forall i | 0 <= i < |after|
      ensures LegalNext(after[..i], after[i])
    {
      assert after[..i] == if i < |log| then log[..i] else log;
    }
  }

  lemma LogQuiet(log: seq<Event>, deliveries: map<Key, DeliveryRow>, event: Event)
    requires LogInv(log, deliveries)
    requires event.PreparationClaimed? || event.VerificationCommitted?
    ensures LogInv(log + [event], deliveries)
  {
    LegalAppend(log, event);
    forall key
      ensures Status(log + [event], key) == Status(log, key)
    {
      StatusAfter(log, event, key);
    }
  }

  lemma LogClaim(log: seq<Event>, deliveries: map<Key, DeliveryRow>, key: Key, row: DeliveryRow, event: Event)
    requires LogInv(log, deliveries) && Claimable(deliveries, key) && row.result.Pending?
    requires event.DeliveryClaimed? && event.key == key
    ensures LogInv(log + [event], deliveries[key := row])
  {
    LegalAppend(log, event);
    forall k
      ensures Status(log + [event], k) == if k == key then Some(DeliveryResult.Pending) else Status(log, k)
    {
      StatusAfter(log, event, k);
    }
  }

  lemma LogRecord(log: seq<Event>, deliveries: map<Key, DeliveryRow>, key: Key, row: DeliveryRow)
    requires LogInv(log, deliveries) && key in deliveries
    requires LegalNext(log, DeliveryRecorded(key, row.result))
    ensures LogInv(log + [DeliveryRecorded(key, row.result)], deliveries[key := row])
  {
    var event := DeliveryRecorded(key, row.result);
    LegalAppend(log, event);
    forall k
      ensures Status(log + [event], k) == if k == key then Some(row.result) else Status(log, k)
    {
      StatusAfter(log, event, k);
    }
  }

  /** Events other than merge claims, preparation claims and verification commits extend the histories quietly. */
  lemma MergeOnceQuiet(tasks: map<TaskId, Task>, approvals: map<ApprovalId, ApprovalRow>, gate: map<TaskId, MonitorId>,
                       log: seq<Event>, event: Event)
    requires MergeOnceInv(tasks, approvals, gate, log) && !IsMergeClaim(event)
    ensures MergeOnceInv(tasks, approvals, gate, log + [event])
  {
  }

  lemma PrepLogQuiet(claims: map<ApprovalId, ClaimRow>, log: seq<Event>, event: Event)
    requires PrepLogInv(claims, log) && !event.PreparationClaimed?
    ensures PrepLogInv(claims, log + [event])
  {
  }

  lemma VerifyLogQuiet(passed: map<TaskId, RunId>, log: seq<Event>, event: Event)
    requires VerifyLogInv(passed, log) && !event.VerificationCommitted?
    ensures VerifyLogInv(passed, log + [event])
  {
  }

  // ----- Delivery rows -----

  /** Recording a result leaves agreement in place, unless it fails the row a merging task relies on. */
  lemma DeliveryRecord(tasks: map<TaskId, Task>, deliveries: map<Key, DeliveryRow>, claim: map<TaskId, Key>,
                       key: Key, row: DeliveryRow)
    requires DeliveryInv(tasks, deliveries, claim) && key in deliveries
    requires row.taskId == deliveries[key].taskId && (row.completed <==> !row.result.IsUnresolved())
    requires row.result.IsUnresolved() ==> deliveries[key].result.IsUnresolved()
    requires row.result.Failed? ==> forall id :: id in tasks && tasks[id].state.Merging? ==> deliveries[key].taskId != Some(id)
    ensures DeliveryInv(tasks, deliveries[key := row], claim)
  {
  }

  /** A failed merge: the row fails and its task returns to the gate in one transaction. */
  lemma DeliveryReturn(tasks: map<TaskId, Task>, deliveries: map<Key, DeliveryRow>, claim: map<TaskId, Key>,
                       key: Key, row: DeliveryRow, id: TaskId, task: Task)
    requires DeliveryInv(tasks, deliveries, claim) && key in deliveries && id in tasks
    requires deliveries[key].result.IsUnresolved() && deliveries[key].taskId == Some(id)
    requires row.taskId == Some(id) && row.result.Failed? && row.completed
    requires task.state.AwaitingMergeApproval?
    ensures DeliveryInv(tasks[id := task], deliveries[key := row], claim)
  {
  }

  lemma DeliveryClaim(tasks: map<TaskId, Task>, deliveries: map<Key, DeliveryRow>, claim: map<TaskId, Key>,
                      key: Key, row: DeliveryRow)
    requires DeliveryInv(tasks, deliveries, claim) && Claimable(deliveries, key) && !IsMergeKey(key)
    requires row.result.Pending? && !row.completed && row.taskId == None
    ensures DeliveryInv(tasks, deliveries[key := row], claim)
  {
  }

  /** A merge claim: the row becomes pending for a task that stood at its gate and now merges. */
  lemma DeliveryMergeClaim(tasks: map<TaskId, Task>, deliveries: map<Key, DeliveryRow>, claim: map<TaskId, Key>,
                           key: Key, row: DeliveryRow, id: TaskId, task: Task)
    requires DeliveryInv(tasks, deliveries, claim) && Claimable(deliveries, key) && IsMergeKey(key)
    requires row.result.Pending? && !row.completed && row.taskId == Some(id)
    requires id in tasks && tasks[id].state.AwaitingMergeApproval? && task.state.Merging?
    ensures DeliveryInv(tasks[id := task], deliveries[key := row], claim[id := key])
  {
  }

  lemma ExecClaim(tasks: map<TaskId, Task>, deliveries: map<Key, DeliveryRow>, execs: map<HandlerId, Exec>,
                  key: Key, row: DeliveryRow, h: HandlerId, exec: Exec)
    requires ExecInv(tasks, deliveries, execs) && Claimable(deliveries, key) && h !in execs
    requires exec.key == key && ExecRowInv(tasks, deliveries[key := row], exec)
    ensures ExecInv(tasks, deliveries[key := row], execs[h := exec])
  {
  }

  /** The executor that finishes is the only one whose row its result touches. */
  lemma ExecFinish(tasks: map<TaskId, Task>, deliveries: map<Key, DeliveryRow>, execs: map<HandlerId, Exec>,
                   h: HandlerId, row: DeliveryRow)
    requires ExecInv(tasks, deliveries, execs) && h in execs
    ensures ExecInv(tasks, deliveries[execs[h].key := row], execs - {h})
  {
  }

  lemma ExecElsewhere(tasks: map<TaskId, Task>, deliveries: map<Key, DeliveryRow>, execs: map<HandlerId, Exec>,
                      key: Key, row: DeliveryRow)
    requires ExecInv(tasks, deliveries, execs)
    requires key in deliveries && !deliveries[key].result.Pending?
    ensures ExecInv(tasks, deliveries[key := row], execs)
  {
  }

  // ----- Justifications -----

  lemma JustifiedWrite(tasks: map<TaskId, Task>, contracts: map<TaskId, TaskContract>,
                       bindings: map<BindingId, RepositoryBinding>, approvals: map<ApprovalId, ApprovalRow>,
                       log: seq<Event>, id: TaskId, task: Task)
    requires JustifiedInv(tasks, contracts, bindings, approvals, log) && Lawful(tasks, id, task)
    ensures JustifiedInv(tasks[id := task], contracts, bindings, approvals, log)
  {
  }

  lemma JustifiedContract(tasks: map<TaskId, Task>, contracts: map<TaskId, TaskContract>,
                          bindings: map<BindingId, RepositoryBinding>, approvals: map<ApprovalId, ApprovalRow>,
                          log: seq<Event>, id: TaskId, contract: TaskContract)
    requires JustifiedInv(tasks, contracts, bindings, approvals, log) && id in tasks && tasks[id].state.Discovered?
    ensures JustifiedInv(tasks, contracts[id := contract], bindings, approvals, log)
  {
  }

  /** Bindings and approvals may be added; neither is ever rewritten. */
  lemma JustifiedGrows(tasks: map<TaskId, Task>, contracts: map<TaskId, TaskContract>,
                       bindings: map<BindingId, RepositoryBinding>, moreBindings: map<BindingId, RepositoryBinding>,
                       approvals: map<ApprovalId, ApprovalRow>, after: map<ApprovalId, ApprovalRow>, log: seq<Event>)
    requires JustifiedInv(tasks, contracts, bindings, approvals, log)
    requires forall id :: id in bindings ==> id in moreBindings && moreBindings[id] == bindings[id]
    requires forall id :: id in approvals ==> id in after && after[id].approval == approvals[id].approval
    ensures JustifiedInv(tasks, contracts, moreBindings, after, log)
  {
  }

  lemma JustifiedQuiet(tasks: map<TaskId, Task>, contracts: map<TaskId, TaskContract>,
                       bindings: map<BindingId, RepositoryBinding>, approvals: map<ApprovalId, ApprovalRow>,
                       log: seq<Event>, event: Event)
    requires JustifiedInv(tasks, contracts, bindings, approvals, log)
    requires event.DeliveryClaimed? ==> JustifiedClaim(tasks, contracts, bindings, approvals, event)
    ensures JustifiedInv(tasks, contracts, bindings, approvals, log + [event])
  {
  }

  // ----- Preparations -----

  lemma PrepClaim(tasks: map<TaskId, Task>, claims: map<ApprovalId, ClaimRow>, preps: map<HandlerId, Prep>,
                  row: ClaimRow, h: HandlerId, prep: Prep)
    requires PrepInv(tasks, claims, preps)
    requires prep.approvalId !in claims && !HasActiveClaim(claims, row.taskId) && row.result.Active?
    requires prep.preview.taskId == row.taskId && prep.phase.Authorized? && h !in preps
    ensures PrepInv(tasks, claims[prep.approvalId := row], preps[h := prep])
  {
  }

  lemma PrepPhaseChange(tasks: map<TaskId, Task>, claims: map<ApprovalId, ClaimRow>, preps: map<HandlerId, Prep>,
                        h: HandlerId, phase: PrepPhase)
    requires PrepInv(tasks, claims, preps) && h in preps
    requires phase.Read? ==> PrepRowInv(tasks, claims, preps[h].(phase := phase))
    ensures PrepInv(tasks, claims, preps[h := preps[h].(phase := phase)])
  {
  }

  lemma PrepRelease(tasks: map<TaskId, Task>, claims: map<ApprovalId, ClaimRow>, preps: map<HandlerId, Prep>,
                    h: HandlerId, row: ClaimRow)
    requires PrepInv(tasks, claims, preps) && h in preps && !row.result.Active?
    ensures PrepInv(tasks, claims[preps[h].approvalId := row], preps - {h})
  {
  }

  /** A task has at most one preparation that has read it. */
  lemma ReadPreparationAlone(tasks: map<TaskId, Task>, claims: map<ApprovalId, ClaimRow>, preps: map<HandlerId, Prep>,
                             h: HandlerId, g: HandlerId)
    requires PrepInv(tasks, claims, preps) && h in preps && g in preps
    requires preps[h].preview.taskId == preps[g].preview.taskId
    ensures h == g
  {
  }

  lemma PrepLogClaim(claims: map<ApprovalId, ClaimRow>, log: seq<Event>, row: ClaimRow, event: Event)
    requires PrepLogInv(claims, log) && event.PreparationClaimed? && event.approvalId !in claims
    ensures PrepLogInv(claims[event.approvalId := row], log + [event])
  {
  }

  // ----- Verification runs -----

  lemma RunBegins(tasks: map<TaskId, Task>, contracts: map<TaskId, TaskContract>, runs: map<RunId, VerificationRun>,
                  live: set<RunId>, r: RunId, run: VerificationRun)
    requires RunsInv(tasks, contracts, runs, live) && r !in runs && run.outcomes == []
    requires RunInv(tasks, contracts, true, run)
    ensures RunsInv(tasks, contracts, runs[r := run], live + {r})
  {
  }

  lemma RunEnds(tasks: map<TaskId, Task>, contracts: map<TaskId, TaskContract>, runs: map<RunId, VerificationRun>,
                live: set<RunId>, fewer: set<RunId>)
    requires RunsInv(tasks, contracts, runs, live) && fewer <= live
    ensures RunsInv(tasks, contracts, runs, fewer)
  {
  }

  lemma RunAdvances(tasks: map<TaskId, Task>, contracts: map<TaskId, TaskContract>, runs: map<RunId, VerificationRun>,
                    live: set<RunId>, r: RunId, success: bool)
    requires RunsInv(tasks, contracts, runs, live) && r in live && r in runs
    requires |runs[r].outcomes| < |runs[r].commands|
    ensures RunsInv(tasks, contracts, runs[r := runs[r].(outcomes := runs[r].outcomes + [success])],
                    if success then live else live - {r})
  {
  }

  lemma EvidenceAdvances(evidence: map<EvidenceKey, VerificationEvidence>, runs: map<RunId, VerificationRun>,
                         r: RunId, success: bool)
    requires EvidenceRowsInv(evidence, runs) && r in runs && |runs[r].outcomes| < |runs[r].commands|
    ensures var n := |runs[r].outcomes|;
            EvidenceRowsInv(evidence[EvidenceKey(runs[r].task.id, r, n + 1) := VerificationEvidence(runs[r].commands[n], success)],
                            runs[r := runs[r].(outcomes := runs[r].outcomes + [success])])
  {
  }

  lemma EvidenceNewRun(evidence: map<EvidenceKey, VerificationEvidence>, runs: map<RunId, VerificationRun>,
                       r: RunId, run: VerificationRun)
    requires EvidenceRowsInv(evidence, runs) && r !in runs && run.outcomes == []
    ensures EvidenceRowsInv(evidence, runs[r := run])
  {
  }

  lemma VerifyLogCommit(passed: map<TaskId, RunId>, log: seq<Event>, event: Event)
    requires VerifyLogInv(passed, log) && event.VerificationCommitted? && event.taskId !in passed
    ensures VerifyLogInv(passed[event.taskId := event.runId], log + [event])
  {
  }

  // ----- Monitors -----

  /** A monitor that is not settled yet may be replaced by its next sound version. */
  lemma MonitorUpdate(tasks: map<TaskId, Task>, monitors: map<MonitorId, MonitorRow>, gate: map<TaskId, MonitorId>,
                      id: MonitorId, next: M.Monitor)
    requires MonitorInv(tasks, monitors) && GateInv(tasks, monitors, gate)
    requires id in monitors && !monitors[id].payload.state.Succeeded?
    requires M.SameTarget(monitors[id].payload, next) && M.Sound(next)
    ensures next.id == id && UpsertedRow(monitors, next) == RowOf(next)
    ensures MonitorInv(tasks, monitors[id := RowOf(next)]) && GateInv(tasks, monitors[id := RowOf(next)], gate)
  {
    assert MonitorRowInv(tasks, id, monitors[id]);
    var after := monitors[id := RowOf(next)];
    forall t | t in gate
      ensures OpenedBy(after, t, gate[t])
    {
      assert OpenedBy(monitors, t, gate[t]);
    }
  }

  lemma MonitorInsert(tasks: map<TaskId, Task>, monitors: map<MonitorId, MonitorRow>, gate: map<TaskId, MonitorId>,
                      id: MonitorId, row: MonitorRow)
    requires MonitorInv(tasks, monitors) && GateInv(tasks, monitors, gate)
    requires id !in monitors && MonitorRowInv(tasks, id, row)
    ensures MonitorInv(tasks, monitors[id := row]) && GateInv(tasks, monitors[id := row], gate)
  {
  }

  lemma MonitorsWoken(tasks: map<TaskId, Task>, monitors: map<MonitorId, MonitorRow>, gate: map<TaskId, MonitorId>,
                      webhook: Webhook, now: Instant)
    requires MonitorInv(tasks, monitors) && GateInv(tasks, monitors, gate)
    ensures MonitorInv(tasks, WokenMonitors(monitors, webhook, now))
    ensures GateInv(tasks, WokenMonitors(monitors, webhook, now), gate)
  {
    var after := WokenMonitors(monitors, webhook, now);
    forall m | m in after
      ensures MonitorRowInv(tasks, m, after[m])
    {
      assert MonitorRowInv(tasks, m, monitors[m]);
    }
    forall t | t in gate
      ensures OpenedBy(after, t, gate[t])
    {
      assert OpenedBy(monitors, t, gate[t]);
    }
  }

  lemma GateOpens(tasks: map<TaskId, Task>, monitors: map<MonitorId, MonitorRow>, gate: map<TaskId, MonitorId>,
                  id: TaskId, m: MonitorId)
    requires GateInv(tasks, monitors, gate) && id in tasks && OpenedBy(monitors, id, m)
    ensures GateInv(tasks, monitors, gate[id := m])
  {
  }

  lemma MergeOnceGate(tasks: map<TaskId, Task>, approvals: map<ApprovalId, ApprovalRow>, gate: map<TaskId, MonitorId>,
                      log: seq<Event>, id: TaskId, m: MonitorId)
    requires MergeOnceInv(tasks, approvals, gate, log)
    ensures MergeOnceInv(tasks, approvals, gate[id := m], log)
  {
  }
}
