/** The task row is the last entry of its timeline, and the timeline is a legal walk from Discovered. */
module TimelineProofs {
  import opened Base
  import opened Sources
  import opened Domain
  import opened Contract
  import opened Tables
  import opened Protocol
  import D = DeliverySpec
  import L = LifecycleSpec

  /** What a task keeps for life. */
  predicate SameIdentity(a: Task, b: Task) {
    a.id == b.id && a.source == b.source && a.bindingId == b.bindingId && a.createdAt == b.createdAt && a.title == b.title
  }

  predicate Follows(earlier: Task, later: Task) {
    SameIdentity(earlier, later) && earlier.state.Permits(later.state)
  }

  /** A non-empty walk of one task from Discovered along legal edges. */
  predicate LegalHistory(id: TaskId, history: seq<Task>) {
    && history != []
    && history[0].state.Discovered? && history[0].id == id
    && forall i :: 0 < i < |history| ==> Follows(history[i - 1], history[i])
  }

  predicate TimelineInv(tasks: map<TaskId, Task>, timeline: map<TaskId, seq<Task>>) {
    && tasks.Keys == timeline.Keys
    && forall id :: id in tasks ==> LegalHistory(id, timeline[id]) && Last(timeline[id]) == tasks[id]
  }

  /** Versions that continue a task: each follows the one before it. */
  predicate Continues(task: Task, versions: seq<Task>) {
    && (versions != [] ==> Follows(task, versions[0]))
    && forall i :: 0 < i < |versions| ==> Follows(versions[i - 1], versions[i])
  }

  lemma {:induction false} HistoryIdentity(id: TaskId, history: seq<Task>, n: nat)
    requires LegalHistory(id, history) && n < |history|
    ensures SameIdentity(history[0], history[n]) && history[n].id == id
  {
    if n > 0 {
      HistoryIdentity(id, history, n - 1);
      assert Follows(history[n - 1], history[n]);
    }
  }

  lemma RowIdentity(tasks: map<TaskId, Task>, timeline: map<TaskId, seq<Task>>, id: TaskId)
    requires TimelineInv(tasks, timeline) && id in tasks
    ensures tasks[id].id == id
  {
    HistoryIdentity(id, timeline[id], |timeline[id]| - 1);
  }

  lemma SaveKeepsTimeline(db: Db, id: TaskId, versions: seq<Task>)
    requires TimelineInv(db.tasks, db.timeline)
    requires id in db.tasks && Continues(db.tasks[id], versions)
    ensures var after := SaveVersions(db, id, versions); TimelineInv(after.tasks, after.timeline)
  {
    if versions != [] {
      var before := db.timeline[id];
      var history := before + versions;
      forall i | 0 < i < |history|
        ensures Follows(history[i - 1], history[i])
      {
        if i >= |before| {
          var k := i - |before|;
          assert history[i] == versions[k] && (k > 0 ==> history[i - 1] == versions[k - 1]);
        }
      }
      assert LegalHistory(id, history);
    }
  }

  lemma CreateKeepsTimeline(db: Db, task: Task)
    requires TimelineInv(db.tasks, db.timeline)
    requires task.id !in db.tasks && task.state.Discovered?
    ensures var after := SaveTask(db, task); TimelineInv(after.tasks, after.timeline)
  {
  }

  lemma WalkContinues(task: Task, path: seq<TaskState>, now: Instant, written: nat)
    requires LegalWalk(task.state, path) && written <= |path|
    ensures Continues(task, Versions(task, path, now)[..written])
  {
  }
}
