/** The durable tables and, for each transaction, the tables it leaves behind. */
module Tables {
  import opened Base
  import opened Sources
  import opened Domain
  import opened Contract
  import opened Capabilities
  import opened GitHubActions
  import opened Policy
  import M = Monitoring

  datatype ApprovalRow = ApprovalRow(approval: Approval, invalidated: bool)

  datatype ClaimResult = Active | Succeeded | Failed | Interrupted
  datatype ClaimRow = ClaimRow(taskId: TaskId, fingerprint: ActionFingerprint, result: ClaimResult)

  datatype DeliveryResult = Pending | Ambiguous | Failed | Succeeded(merged: bool)
  {
    predicate IsUnresolved() { Pending? || Ambiguous? }
  }
  /** `completed` is whether the row has a completion time. */
  datatype DeliveryRow = DeliveryRow(result: DeliveryResult, taskId: Option<TaskId>, claimedAt: Instant, completed: bool)

  datatype EvidenceKey = EvidenceKey(taskId: TaskId, runId: RunId, ordinal: nat)
  datatype VerificationEvidence = VerificationEvidence(command: VerificationCommand, success: bool)

  /** The indexed columns of a monitor beside its payload. */
  datatype MonitorRow = MonitorRow(taskId: TaskId, repositoryFullName: string, pullRequestNumber: nat,
                                   state: M.MonitorState, nextAttemptAt: Option<Instant>, payload: M.Monitor)

  datatype WorkItemKind = Issue | PullRequest
  datatype WorkItem = WorkItem(
    kind: WorkItemKind, repositoryFullName: string, number: nat, state: string, stateReason: Option<string>,
    headRef: Option<string>, headSha: Option<Sha>, baseSha: Option<Sha>, merged: Option<bool>,
    ciHealth: Option<string>, reviewDecision: Option<string>, hasConflicts: Option<bool>, mergeable: Option<bool>)
  datatype Snapshot = Snapshot(repositoryId: nat, repositoryFullName: string, workItems: seq<WorkItem>)
  datatype SnapshotRow = SnapshotRow(snapshot: Snapshot, syncedAt: Instant)

  datatype SourceKey = SourceKey(repositoryId: nat, kind: WorkItemKind, number: nat)

  datatype Db = Db(
    tasks: map<TaskId, Task>,
    timeline: map<TaskId, seq<Task>>,
    taskSources: map<SourceKey, TaskId>,
    bindings: map<BindingId, RepositoryBinding>,
    contracts: map<TaskId, TaskContract>,
    approvals: map<ApprovalId, ApprovalRow>,
    claims: map<ApprovalId, ClaimRow>,
    deliveries: map<Key, DeliveryRow>,
    evidence: map<EvidenceKey, VerificationEvidence>,
    monitors: map<MonitorId, MonitorRow>,
    snapshots: map<string, SnapshotRow>,
    webhooks: set<string>)

  const EMPTY: Db := Db(map[], map[], map[], map[], map[], map[], map[], map[], map[], map[], map[], {})

  // ----- Tasks and their timeline -----

  function History(timeline: map<TaskId, seq<Task>>, id: TaskId): seq<Task> {
    if id in timeline then timeline[id] else []
  }

  /** All versions of one task saved in order: the row holds the last one, the timeline all of them. */
  function SaveVersions(db: Db, id: TaskId, versions: seq<Task>): Db {
    if versions == [] then db
    else db.(tasks := db.tasks[id := Last(versions)],
             timeline := db.timeline[id := History(db.timeline, id) + versions])
  }

  function SaveTask(db: Db, task: Task): Db {
    SaveVersions(db, task.id, [task])
  }

  /** Saving versions one by one is saving them all. */
  lemma SaveOneMore(db: Db, id: TaskId, versions: seq<Task>, n: nat)
    requires n < |versions| && versions[n].id == id
    ensures SaveTask(SaveVersions(db, id, versions[..n]), versions[n]) == SaveVersions(db, id, versions[..n + 1])
  {
    var front, whole := versions[..n], versions[..n + 1];
    assert whole == front + [versions[n]] && Last(whole) == versions[n];
    assert History(db.timeline, id) + whole == (History(db.timeline, id) + front) + [versions[n]];
    if n == 0 {
      assert front == [] && whole == [versions[n]];
    } else {
      var saved := SaveVersions(db, id, front);
      assert saved.timeline[id] == History(db.timeline, id) + front;
      assert saved.timeline[id := History(db.timeline, id) + whole] == db.timeline[id := History(db.timeline, id) + whole];
      assert saved.tasks[id := versions[n]] == db.tasks[id := versions[n]];
    }
  }

  lemma SaveTwo(db: Db, first: Task, second: Task)
    requires first.id == second.id
    ensures SaveTask(SaveTask(db, first), second) == SaveVersions(db, first.id, [first, second])
  {
    SaveOneMore(db, first.id, [first, second], 1);
    assert [first, second][..1] == [first] && [first, second][..2] == [first, second];
  }

  /** The successive versions of a task that walks a path of states. */
  function Versions(task: Task, path: seq<TaskState>, now: Instant): seq<Task> {
    seq(|path|, i requires 0 <= i < |path| => Moved(task, path[i], now))
  }

  predicate LegalWalk(from: TaskState, path: seq<TaskState>) {
    && (path != [] ==> from.Permits(path[0]))
    && forall i :: 0 < i < |path| ==> path[i - 1].Permits(path[i])
  }

  // ----- Approvals and preparation claims -----

  function SaveApproval(db: Db, approval: Approval): Db {
    var invalidated := approval.id in db.approvals && db.approvals[approval.id].invalidated;
    db.(approvals := db.approvals[approval.id := ApprovalRow(approval, invalidated)])
  }

  function LiveApproval(db: Db, id: ApprovalId): Option<Approval> {
    if id in db.approvals && !db.approvals[id].invalidated then Some(db.approvals[id].approval) else None
  }

  function InvalidatedFor(approvals: map<ApprovalId, ApprovalRow>, taskId: TaskId): map<ApprovalId, ApprovalRow> {
    map id | id in approvals ::
      if approvals[id].approval.fingerprint.taskId == taskId then approvals[id].(invalidated := true) else approvals[id]
  }

  function InvalidateTaskApprovals(db: Db, taskId: TaskId): Db {
    db.(approvals := InvalidatedFor(db.approvals, taskId))
  }

  datatype PreparationClaimOutcome = Claimed | ApprovalUnavailable | AlreadyClaimed | TaskInProgress

  predicate PreparationAvailable(db: Db, id: ApprovalId, taskId: TaskId, fingerprint: ActionFingerprint, now: Instant) {
    && id in db.approvals
    && !db.approvals[id].invalidated
    && var approval := db.approvals[id].approval;
       && approval.fingerprint == fingerprint
       && approval.fingerprint.taskId == taskId
       && approval.capability.PrepareWorktree?
       && now < approval.expiresAt
  }

  predicate HasActiveClaim(claims: map<ApprovalId, ClaimRow>, taskId: TaskId) {
    exists id :: id in claims && claims[id].taskId == taskId && claims[id].result.Active?
  }

  function ClaimPreparationOutcome(db: Db, id: ApprovalId, taskId: TaskId, fingerprint: ActionFingerprint,
                                   now: Instant): PreparationClaimOutcome
  {
    if id in db.claims then AlreadyClaimed
    else if !PreparationAvailable(db, id, taskId, fingerprint, now) then ApprovalUnavailable
    else if HasActiveClaim(db.claims, taskId) then TaskInProgress
    else Claimed
  }

  function ClaimPreparation(db: Db, id: ApprovalId, taskId: TaskId, fingerprint: ActionFingerprint, now: Instant): Db {
    if ClaimPreparationOutcome(db, id, taskId, fingerprint, now).Claimed? then
      db.(claims := db.claims[id := ClaimRow(taskId, fingerprint, Active)])
    else db
  }

  predicate IsActiveClaim(db: Db, id: ApprovalId) {
    id in db.claims && db.claims[id].result.Active?
  }

  function CompletePreparationClaim(db: Db, id: ApprovalId, result: ClaimResult): Db
    requires IsActiveClaim(db, id)
  {
    db.(claims := db.claims[id := db.claims[id].(result := result)])
  }

  function RecoverInterruptedPreparations(db: Db): Db {
    db.(claims := map id | id in db.claims ::
      if db.claims[id].result.Active? then db.claims[id].(result := Interrupted) else db.claims[id])
  }

  // ----- Deliveries -----

  predicate Claimable(deliveries: map<Key, DeliveryRow>, key: Key) {
    key in deliveries ==> deliveries[key].result.Failed?
  }

  function ClaimedRow(deliveries: map<Key, DeliveryRow>, key: Key, taskId: Option<TaskId>, now: Instant): DeliveryRow {
    DeliveryRow(DeliveryResult.Pending, if taskId.None? && key in deliveries then deliveries[key].taskId else taskId, now, false)
  }

  /** Takes a key that is free or definitely failed, together with the task version that starts it. */
  function ClaimDelivery(db: Db, key: Key, taskEvent: Option<Task>, now: Instant): Db {
    if !Claimable(db.deliveries, key) then db
    else
      var taskId := if taskEvent.Some? then Some(taskEvent.value.id) else None;
      var claimed := db.(deliveries := db.deliveries[key := ClaimedRow(db.deliveries, key, taskId, now)]);
      if taskEvent.Some? then SaveTask(claimed, taskEvent.value) else claimed
  }

  /** Writes a result whatever the row held before, as the update statement does. */
  function RecordDelivery(db: Db, key: Key, result: DeliveryResult): Db
    requires key in db.deliveries
  {
    db.(deliveries := db.deliveries[key := db.deliveries[key].(result := result, completed := !result.IsUnresolved())])
  }

  function CompleteFailedMerge(db: Db, key: Key, task: Task): Db
    requires key in db.deliveries
  {
    SaveTask(InvalidateTaskApprovals(RecordDelivery(db, key, DeliveryResult.Failed), task.id), task)
  }

  predicate IsAmbiguousFor(deliveries: map<Key, DeliveryRow>, taskId: TaskId, key: Key) {
    && key in deliveries
    && deliveries[key].taskId == Some(taskId)
    && deliveries[key].result.Ambiguous?
    && !deliveries[key].completed
  }

  /** What the newest-first lookup of an ambiguous row may return. */
  predicate IsAmbiguousChoice(deliveries: map<Key, DeliveryRow>, taskId: TaskId, choice: Option<Key>) {
    match choice
    case None => forall key :: key in deliveries ==> !IsAmbiguousFor(deliveries, taskId, key)
    case Some(key) =>
      && IsAmbiguousFor(deliveries, taskId, key)
      && forall other :: other in deliveries && IsAmbiguousFor(deliveries, taskId, other) ==>
           deliveries[other].claimedAt <= deliveries[key].claimedAt
  }

  // ----- Monitors and webhooks -----

  function RowOf(monitor: M.Monitor): MonitorRow {
    MonitorRow(monitor.taskId, monitor.repositoryFullName, monitor.pullRequestNumber, monitor.state,
               monitor.nextAttemptAt, monitor)
  }

  /** An upsert never rewrites the identity columns of an existing row. */
  function UpsertedRow(monitors: map<MonitorId, MonitorRow>, monitor: M.Monitor): MonitorRow {
    if monitor.id in monitors then
      monitors[monitor.id].(state := monitor.state, nextAttemptAt := monitor.nextAttemptAt, payload := monitor)
    else RowOf(monitor)
  }

  function SaveMonitor(db: Db, monitor: M.Monitor): Db {
    db.(monitors := db.monitors[monitor.id := UpsertedRow(db.monitors, monitor)])
  }

  function SaveMonitorWithTaskEvent(db: Db, monitor: M.Monitor, task: Task): Db {
    SaveTask(SaveMonitor(db, monitor), task)
  }

  datatype Webhook = Webhook(deliveryId: string, repositoryFullName: Option<string>, entityNumber: Option<nat>)

  predicate Wakes(row: MonitorRow, webhook: Webhook) {
    && row.state.Pending?
    && webhook.repositoryFullName == Some(row.repositoryFullName)
    && (webhook.entityNumber.Some? ==> webhook.entityNumber.value == row.pullRequestNumber)
  }

  function WokenRow(row: MonitorRow, now: Instant): MonitorRow {
    var monitor := M.Woken(row.payload, now);
    if row.payload.state.Pending? then
      row.(state := monitor.state, nextAttemptAt := monitor.nextAttemptAt, payload := monitor)
    else row
  }

  function WokenMonitors(monitors: map<MonitorId, MonitorRow>, webhook: Webhook, now: Instant): map<MonitorId, MonitorRow> {
    map id | id in monitors :: if Wakes(monitors[id], webhook) then WokenRow(monitors[id], now) else monitors[id]
  }

  function IngestWebhook(db: Db, webhook: Webhook, now: Instant): Db {
    if webhook.deliveryId in db.webhooks then db
    else db.(webhooks := db.webhooks + {webhook.deliveryId}, monitors := WokenMonitors(db.monitors, webhook, now))
  }

  // ----- Creation -----

  /** A GitHub item becomes a task once; later conversions find that task. */
  function CreateConvertedTask(db: Db, task: Task, sourceKey: SourceKey): Db {
    if sourceKey in db.taskSources then db
    else SaveTask(db, task).(taskSources := db.taskSources[sourceKey := task.id])
  }
}
