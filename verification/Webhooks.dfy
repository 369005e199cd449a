/** Webhook deliveries arrive at least once; ingesting them has the effect of their first arrivals. */
module Webhooks {
  import opened Base
  import opened Tables
  import opened Protocol
  import opened Invariant
  import opened Reachability
  import M = Monitoring

  datatype Arrival = Arrival(webhook: Webhook, at: Instant)

  function IngestAll(db: Db, arrivals: seq<Arrival>): Db {
    if arrivals == [] then db
    else Tables.IngestWebhook(IngestAll(db, arrivals[..|arrivals| - 1]), Last(arrivals).webhook, Last(arrivals).at)
  }

  function Ids(arrivals: seq<Arrival>): set<string> {
    if arrivals == [] then {} else Ids(arrivals[..|arrivals| - 1]) + {Last(arrivals).webhook.deliveryId}
  }

  /** The arrivals whose delivery id neither the store nor an earlier arrival had. */
  function FirstArrivals(known: set<string>, arrivals: seq<Arrival>): seq<Arrival> {
    if arrivals == [] then []
    else
      var front, last := arrivals[..|arrivals| - 1], Last(arrivals);
      if last.webhook.deliveryId in known + Ids(front) then FirstArrivals(known, front)
      else FirstArrivals(known, front) + [last]
  }

  lemma IngestRemembers(db: Db, webhook: Webhook, at: Instant)
    ensures Tables.IngestWebhook(db, webhook, at).webhooks == db.webhooks + {webhook.deliveryId}
  {
  }

  lemma {:induction false} IngestAllRemembers(db: Db, arrivals: seq<Arrival>)
    ensures IngestAll(db, arrivals).webhooks == db.webhooks + Ids(arrivals)
  {
    if arrivals != [] {
      var front := arrivals[..|arrivals| - 1];
      IngestAllRemembers(db, front);
      IngestRemembers(IngestAll(db, front), Last(arrivals).webhook, Last(arrivals).at);
    }
  }

  lemma {:induction false} IdsAreTheirs(arrivals: seq<Arrival>)
    ensures forall i :: 0 <= i < |arrivals| ==> arrivals[i].webhook.deliveryId in Ids(arrivals)
  {
    if arrivals != [] {
      IdsAreTheirs(arrivals[..|arrivals| - 1]);
    }
  }

  /** No first arrival is known or repeated. */
  lemma {:induction false} FirstArrivalsAreDistinct(known: set<string>, arrivals: seq<Arrival>)
    ensures Ids(FirstArrivals(known, arrivals)) == Ids(arrivals) - known
    ensures var firsts := FirstArrivals(known, arrivals);
            forall i, j :: 0 <= i < j < |firsts| ==> firsts[i].webhook.deliveryId != firsts[j].webhook.deliveryId
  {
    if arrivals != [] {
      var front, last := arrivals[..|arrivals| - 1], Last(arrivals);
      FirstArrivalsAreDistinct(known, front);
      var firsts := FirstArrivals(known, front);
      IdsAreTheirs(firsts);
      assert (firsts + [last])[..|firsts|] == firsts;
    }
  }

  /** Any sequence of deliveries with repeats leaves what its first arrivals alone would have left. */
  lemma {:induction false} RepeatsChangeNothing(db: Db, arrivals: seq<Arrival>)
    ensures IngestAll(db, arrivals) == IngestAll(db, FirstArrivals(db.webhooks, arrivals))
  {
    if arrivals != [] {
      var front, last := arrivals[..|arrivals| - 1], Last(arrivals);
      RepeatsChangeNothing(db, front);
      IngestAllRemembers(db, front);
      if last.webhook.deliveryId in db.webhooks + Ids(front) {
        KnownIsIgnored(IngestAll(db, front), last);
      } else {
        IngestOneMore(db, FirstArrivals(db.webhooks, front), last);
      }
    }
  }

  lemma KnownIsIgnored(db: Db, arrival: Arrival)
    requires arrival.webhook.deliveryId in db.webhooks
    ensures Tables.IngestWebhook(db, arrival.webhook, arrival.at) == db
  {
  }

  lemma IngestOneMore(db: Db, arrivals: seq<Arrival>, last: Arrival)
    ensures IngestAll(db, arrivals + [last]) == Tables.IngestWebhook(IngestAll(db, arrivals), last.webhook, last.at)
  {
  }

  /** The monitors a webhook is about: pending, of its repository, and of its number when it names one. */
  predicate Concerned(monitor: M.Monitor, webhook: Webhook) {
    && monitor.state.Pending?
    && webhook.repositoryFullName == Some(monitor.repositoryFullName)
    && (webhook.entityNumber.Some? ==> webhook.entityNumber.value == monitor.pullRequestNumber)
  }

  /** In reachable states a new webhook reschedules exactly the concerned monitors for now, changes no
      monitor's state, and leaves every row's columns equal to its payload. */
  lemma WebhookWakesExactly(s: Sys, webhook: Webhook, now: Instant, id: MonitorId)
    requires Reachable(s) && webhook.deliveryId !in s.db.webhooks && id in s.db.monitors
    ensures var before, after := s.db.monitors[id].payload, Tables.IngestWebhook(s.db, webhook, now).monitors;
            && id in after
            && after[id] == RowOf(after[id].payload)
            && after[id].payload.state == before.state
            && after[id].payload == if Concerned(before, webhook) then before.(nextAttemptAt := Some(now), updatedAt := now)
                                    else before
  {
    ReachableInv(s);
    assert Holds(Monitors, s);
    assert MonitorRowInv(s.db.tasks, id, s.db.monitors[id]);
  }
}
