/** Events of a runtime session: what the engine stores and the client shows. */
module CodexEvents {
  import opened Base

  datatype EventKind =
    | ProcessStarted | Initialized | AccountRead | ThreadReady | ThreadStale | UserMessage | UserSteer
    | ItemStarted | ItemCompleted | TextDelta | ReasoningDelta | CommandOutputDelta | FileChangeDelta
    | TurnCompleted | Error | Unknown(value: string)

  datatype CodexEvent = CodexEvent(
    taskId: TaskId,
    processGeneration: nat,
    sequence: nat,
    kind: EventKind,
    summary: string,
    threadId: Option<string>,
    turnId: Option<string>,
    itemId: Option<string>,
    content: Option<string>,
    occurredAt: Instant)

  /** The events of one task, in the order of a list. */
  function OfTask(rows: seq<CodexEvent>, id: TaskId): seq<CodexEvent> {
    if rows == [] then []
    else OfTask(rows[..|rows| - 1], id) + if Last(rows).taskId == id then [Last(rows)] else []
  }

  /** Numbered 1..n without a gap. */
  predicate Numbered(log: seq<CodexEvent>) {
    forall i :: 0 <= i < |log| ==> log[i].sequence == i + 1
  }

  predicate Increasing(log: seq<CodexEvent>) {
    forall i, j :: 0 <= i < j < |log| ==> log[i].sequence < log[j].sequence
  }

  // ----- Sorting by sequence -----

  function Insert(event: CodexEvent, sorted: seq<CodexEvent>): seq<CodexEvent> {
    if sorted == [] || Last(sorted).sequence <= event.sequence then sorted + [event]
    else Insert(event, sorted[..|sorted| - 1]) + [Last(sorted)]
  }

  /** The stable ascending order. */
  function SortBySequence(events: seq<CodexEvent>): seq<CodexEvent> {
    if events == [] then [] else Insert(Last(events), SortBySequence(events[..|events| - 1]))
  }

  predicate Ascending(log: seq<CodexEvent>) {
    forall i, j :: 0 <= i < j < |log| ==> log[i].sequence <= log[j].sequence
  }

  lemma {:induction false} InsertInserts(event: CodexEvent, sorted: seq<CodexEvent>)
    ensures multiset(Insert(event, sorted)) == multiset(sorted) + multiset{event}
  {
    if sorted != [] && event.sequence < Last(sorted).sequence {
      var front := sorted[..|sorted| - 1];
      InsertInserts(event, front);
      assert sorted == front + [Last(sorted)];
    }
  }

  lemma {:induction false} InsertKeepsAscending(event: CodexEvent, sorted: seq<CodexEvent>)
    requires Ascending(sorted)
    ensures Ascending(Insert(event, sorted))
    ensures forall i :: 0 <= i < |Insert(event, sorted)| ==> Insert(event, sorted)[i] == event || Insert(event, sorted)[i] in sorted
  {
    if sorted != [] && event.sequence < Last(sorted).sequence {
      var front := sorted[..|sorted| - 1];
      InsertKeepsAscending(event, front);
      assert sorted == front + [Last(sorted)];
      var inserted := Insert(event, front);
      forall i | 0 <= i < |inserted| ensures inserted[i].sequence <= Last(sorted).sequence {
        assert inserted[i] == event || inserted[i] in front;
      }
    }
  }

  /** Sorting really sorts, and loses and invents nothing. */
  lemma {:induction false} SortSorts(events: seq<CodexEvent>)
    ensures Ascending(SortBySequence(events))
    ensures multiset(SortBySequence(events)) == multiset(events)
  {
    if events != [] {
      var front := events[..|events| - 1];
      SortSorts(front);
      InsertKeepsAscending(Last(events), SortBySequence(front));
      InsertInserts(Last(events), SortBySequence(front));
      assert events == front + [Last(events)];
    }
  }

  lemma {:induction false} SortKeepsIncreasing(events: seq<CodexEvent>)
    requires Increasing(events)
    ensures SortBySequence(events) == events
  {
    if events != [] {
      var front := events[..|events| - 1];
      SortKeepsIncreasing(front);
      assert Insert(Last(events), front) == front + [Last(events)];
      assert events == front + [Last(events)];
    }
  }
}

/** The engine's numbered, append-only event log. */
module CodexLogs {
  import opened Base
  import opened CodexEvents

  /** The highest sequence of a task so far, zero without any. */
  function MaxSequence(rows: seq<CodexEvent>, id: TaskId): nat {
    if rows == [] then 0
    else
      var before := MaxSequence(rows[..|rows| - 1], id);
      if Last(rows).taskId == id && Last(rows).sequence > before then Last(rows).sequence else before
  }

  /** What an event says before it has a number. */
  datatype Draft = Draft(taskId: TaskId, processGeneration: nat, kind: EventKind, summary: string, threadId: Option<string>,
                         turnId: Option<string>, itemId: Option<string>, content: Option<string>)

  function EventOf(draft: Draft, sequence: nat, now: Instant): CodexEvent {
    CodexEvent(draft.taskId, draft.processGeneration, sequence, draft.kind, draft.summary, draft.threadId, draft.turnId,
               draft.itemId, draft.content, now)
  }

  function Appended(rows: seq<CodexEvent>, draft: Draft, now: Instant): seq<CodexEvent> {
    rows + [EventOf(draft, MaxSequence(rows, draft.taskId) + 1, now)]
  }

  /** The rows of a task after a cursor, in order, cut to a page. */
  function After(rows: seq<CodexEvent>, id: TaskId, after: nat): seq<CodexEvent> {
    SortBySequence(Beyond(OfTask(rows, id), after))
  }

  function Beyond(log: seq<CodexEvent>, after: nat): seq<CodexEvent> {
    if log == [] then []
    else Beyond(log[..|log| - 1], after) + if Last(log).sequence > after then [Last(log)] else []
  }

  function Truncated(events: seq<CodexEvent>, limit: nat): seq<CodexEvent> {
    if |events| <= limit then events else events[..limit]
  }

  ghost predicate AllNumbered(rows: seq<CodexEvent>) {
    forall id :: Numbered(OfTask(rows, id))
  }

  lemma {:induction false} MaxIsLength(rows: seq<CodexEvent>, id: TaskId)
    requires Numbered(OfTask(rows, id))
    ensures MaxSequence(rows, id) == |OfTask(rows, id)|
  {
    if rows != [] {
      var front := rows[..|rows| - 1];
      assert forall i :: 0 <= i < |OfTask(front, id)| ==> OfTask(front, id)[i] == OfTask(rows, id)[i];
      MaxIsLength(front, id);
      if Last(rows).taskId == id {
        assert OfTask(rows, id)[|OfTask(front, id)|] == Last(rows);
      }
    }
  }

  lemma AppendKeepsNumbers(rows: seq<CodexEvent>, draft: Draft, now: Instant)
    requires AllNumbered(rows)
    ensures AllNumbered(Appended(rows, draft, now))
    ensures forall id :: OfTask(Appended(rows, draft, now), id) == OfTask(rows, id) +
              if id == draft.taskId then [EventOf(draft, |OfTask(rows, id)| + 1, now)] else []
  {
    var after := Appended(rows, draft, now);
    assert after[..|after| - 1] == rows;
    MaxIsLength(rows, draft.taskId);
    forall id
      ensures OfTask(after, id) == OfTask(rows, id) +
                if id == draft.taskId then [EventOf(draft, |OfTask(rows, id)| + 1, now)] else []
      ensures Numbered(OfTask(after, id))
    {
      assert Numbered(OfTask(rows, id));
    }
  }

  /** A list that is a stretch of a log, starting right after its first `start` events. */
  ghost predicate IsStretch(list: seq<CodexEvent>, log: seq<CodexEvent>, start: nat) {
    start + |list| <= |log| && forall i :: 0 <= i < |list| ==> list[i] == log[start + i]
  }

  lemma {:induction false} BeyondIsSuffix(log: seq<CodexEvent>, after: nat)
    requires Numbered(log) && after <= |log|
    ensures IsStretch(Beyond(log, after), log, after) && |Beyond(log, after)| == |log| - after
  {
    if log != [] {
      var front := log[..|log| - 1];
      if after < |log| {
        BeyondIsSuffix(front, after);
      } else {
        NothingBeyond(log, after);
      }
    }
  }

  lemma {:induction false} NothingBeyond(log: seq<CodexEvent>, after: nat)
    requires Numbered(log) && |log| <= after
    ensures Beyond(log, after) == []
  {
    if log != [] {
      NothingBeyond(log[..|log| - 1], after);
    }
  }

  lemma StretchIncreases(list: seq<CodexEvent>, log: seq<CodexEvent>, start: nat)
    requires Numbered(log) && IsStretch(list, log, start)
    ensures Increasing(list)
  {
  }

  /** A page is the stretch of the log right after the cursor, as long as the limit and the log allow. */
  lemma PageIsStretch(log: seq<CodexEvent>, after: nat, limit: nat)
    requires Numbered(log) && after <= |log|
    ensures var page := Truncated(SortBySequence(Beyond(log, after)), limit);
            && IsStretch(page, log, after)
            && |page| == if after + limit <= |log| then limit else |log| - after
  {
    BeyondIsSuffix(log, after);
    StretchIncreases(Beyond(log, after), log, after);
    SortKeepsIncreasing(Beyond(log, after));
  }

  datatype Session = Session(taskId: TaskId, processGeneration: nat, lastSequence: nat, updatedAt: Instant)

  class CodexLog {
    var rows: seq<CodexEvent>
    var sessions: map<TaskId, Session>

    /** Every task's events are numbered 1..n, and its session knows n. */
    ghost predicate Valid()
      reads this
    {
      && AllNumbered(rows)
      && forall id :: id in sessions ==> sessions[id].taskId == id && sessions[id].lastSequence == |OfTask(rows, id)|
    }

    constructor ()
      ensures Valid() && rows == [] && sessions == map[]
    {
      rows, sessions := [], map[];
    }

    /** The aggregate query over the rows of one task. */
    method SelectMax(id: TaskId) returns (max: nat)
      ensures max == MaxSequence(rows, id)
    {
      max := 0;
      for i := 0 to |rows|
        invariant max == MaxSequence(rows[..i], id)
      {
        assert rows[..i + 1][..i] == rows[..i];
        if rows[i].taskId == id && rows[i].sequence > max {
          max := rows[i].sequence;
        }
      }
      assert rows[..|rows|] == rows;
    }

    /** Numbers a well-formed draft and stores it with its session in one transaction. The session handed
        in may be out of date; its number is recomputed from the rows. */
    method Append(session: Session, draft: Draft, wellFormed: bool, now: Instant) returns (r: Option<Session>)
      requires Valid() && session.taskId == draft.taskId
      modifies this
      ensures Valid()
      ensures r.Some? <==> wellFormed
      ensures r.Some? ==> rows == Appended(old(rows), draft, now) && sessions == old(sessions)[draft.taskId := r.value]
      ensures r.Some? ==> r.value.lastSequence == |OfTask(rows, draft.taskId)| == |OfTask(old(rows), draft.taskId)| + 1
      ensures r.None? ==> rows == old(rows) && sessions == old(sessions)
    {
      if !wellFormed {
        return None;
      }
      var max := SelectMax(draft.taskId);
      MaxIsLength(rows, draft.taskId);
      AppendKeepsNumbers(rows, draft, now);
      var next := session.(lastSequence := max + 1, updatedAt := now);
      sessions := sessions[draft.taskId := next];
      rows := rows + [CodexEvent(draft.taskId, draft.processGeneration, max + 1, draft.kind, draft.summary, draft.threadId,
                                 draft.turnId, draft.itemId, draft.content, now)];
      return Some(next);
    }

    /** One page; the server refuses an empty or oversized limit. */
    method Events(id: TaskId, after: nat, limit: nat) returns (page: Option<seq<CodexEvent>>)
      ensures page.Some? <==> 0 < limit <= 500
      ensures page.Some? ==> page.value == Truncated(After(rows, id, after), limit)
    {
      if limit == 0 || limit > 500 {
        return None;
      }
      var log: seq<CodexEvent> := [];
      for i := 0 to |rows|
        invariant log == Beyond(OfTask(rows[..i], id), after)
      {
        var part := rows[..i + 1];
        assert part[..i] == rows[..i];
        var before := OfTask(rows[..i], id);
        assert OfTask(part, id) == if rows[i].taskId == id then before + [rows[i]] else before;
        assert (before + [rows[i]])[..|before|] == before;
        if rows[i].taskId == id && rows[i].sequence > after {
          log := log + [rows[i]];
        }
      }
      assert rows[..|rows|] == rows;
      var ordered := SortBySequence(log);
      return Some(Truncated(ordered, limit));
    }
  }
}

/** The client polls with overlapping refreshes; every await lets other refreshes and appends run. */
module CodexPolling {
  import opened Base
  import opened CodexEvents
  import opened CodexLogs

  /** What is shown for a task; nothing is an empty list. */
  function Shown(lists: map<TaskId, seq<CodexEvent>>, id: TaskId): seq<CodexEvent> {
    if id in lists then lists[id] else []
  }

  function Cursor(events: seq<CodexEvent>): nat {
    if events == [] then 0 else Last(events).sequence
  }

  function Unseen(seen: set<nat>, events: seq<CodexEvent>): seq<CodexEvent> {
    if events == [] then []
    else Unseen(seen, events[..|events| - 1]) + if Last(events).sequence in seen then [] else [Last(events)]
  }

  function Sequences(events: seq<CodexEvent>): set<nat> {
    set i | 0 <= i < |events| :: events[i].sequence
  }

  function Merged(existing: seq<CodexEvent>, page: seq<CodexEvent>): seq<CodexEvent> {
    SortBySequence(existing + Unseen(Sequences(existing), page))
  }

  class ClientStore {
    var codexEventsByTask: map<TaskId, seq<CodexEvent>>

    constructor ()
      ensures codexEventsByTask == map[]
    {
      codexEventsByTask := map[];
    }

    /** The cursor a refresh asks with. */
    method ReadCursor(id: TaskId) returns (cursor: nat)
      ensures cursor == Cursor(Shown(codexEventsByTask, id))
    {
      cursor := 0;
      if id in codexEventsByTask && codexEventsByTask[id] != [] {
        cursor := Last(codexEventsByTask[id]).sequence;
      }
    }

    /** Merges a page into what is shown now, which need not be what the cursor was read from. */
    method Merge(id: TaskId, page: seq<CodexEvent>)
      modifies this
      ensures page != [] ==> codexEventsByTask == old(codexEventsByTask)[id := Merged(Shown(old(codexEventsByTask), id), page)]
      ensures page == [] ==> codexEventsByTask == old(codexEventsByTask)
    {
      if page == [] {
        return;
      }
      var existing := Shown(codexEventsByTask, id);
      var seen: set<nat> := {};
      for i := 0 to |existing|
        invariant seen == Sequences(existing[..i])
      {
        seen := seen + {existing[i].sequence};
      }
      assert existing[..|existing|] == existing;
      var added: seq<CodexEvent> := [];
      for i := 0 to |page|
        invariant added == Unseen(seen, page[..i])
      {
        assert page[..i + 1][..i] == page[..i];
        if page[i].sequence !in seen {
          added := added + [page[i]];
        }
      }
      assert page[..|page|] == page;
      codexEventsByTask := codexEventsByTask[id := SortBySequence(existing + added)];
    }
  }

  // ----- All interleavings -----

  /** A refresh has read its cursor, or has its page and waits for the approvals it also fetches. */
  datatype Refresh = Asked(taskId: TaskId, cursor: nat) | Answered(taskId: TaskId, cursor: nat, page: seq<CodexEvent>)

  datatype Sys = Sys(rows: seq<CodexEvent>, lists: map<TaskId, seq<CodexEvent>>, refreshes: map<nat, Refresh>)

  datatype Step =
    | Append(draft: Draft, now: Instant)
    | Ask(refresh: nat, taskId: TaskId)
    | Answer(refresh: nat, limit: nat)
    | Show(refresh: nat)
    | Fail(refresh: nat)

  function Apply(s: Sys, step: Step): Sys {
    match step
    case Append(draft, now) => s.(rows := Appended(s.rows, draft, now))
    case Ask(r, id) =>
      if r in s.refreshes then s else s.(refreshes := s.refreshes[r := Asked(id, Cursor(Shown(s.lists, id)))])
    case Answer(r, limit) =>
      if r !in s.refreshes || !s.refreshes[r].Asked? then s
      else
        var asked := s.refreshes[r];
        s.(refreshes := s.refreshes[r := Answered(asked.taskId, asked.cursor,
                                                  Truncated(After(s.rows, asked.taskId, asked.cursor), limit))])
    case Show(r) =>
      if r !in s.refreshes || !s.refreshes[r].Answered? then s
      else
        var answered := s.refreshes[r];
        var lists := if answered.page == [] then s.lists
                     else s.lists[answered.taskId := Merged(Shown(s.lists, answered.taskId), answered.page)];
        s.(lists := lists, refreshes := s.refreshes - {r})
    case Fail(r) => s.(refreshes := s.refreshes - {r})
  }

  function Run(steps: seq<Step>): Sys {
    if steps == [] then Sys([], map[], map[])
    else Apply(Run(steps[..|steps| - 1]), Last(steps))
  }

  ghost predicate IsPrefix(list: seq<CodexEvent>, log: seq<CodexEvent>) {
    IsStretch(list, log, 0)
  }

  /** A page is a stretch of the log that starts inside what is shown. */
  ghost predicate RefreshInv(log: seq<CodexEvent>, shown: seq<CodexEvent>, refresh: Refresh) {
    refresh.cursor <= |shown| && (refresh.Answered? ==> IsStretch(refresh.page, log, refresh.cursor))
  }

  ghost predicate Inv(s: Sys) {
    && AllNumbered(s.rows)
    && (forall id :: IsPrefix(Shown(s.lists, id), OfTask(s.rows, id)))
    && forall r :: r in s.refreshes ==>
         RefreshInv(OfTask(s.rows, s.refreshes[r].taskId), Shown(s.lists, s.refreshes[r].taskId), s.refreshes[r])
  }

  lemma {:induction false} NothingUnseen(log: seq<CodexEvent>, seen: set<nat>, m: nat, page: seq<CodexEvent>, start: nat)
    requires Numbered(log) && IsStretch(page, log, start) && start + |page| <= m
    requires forall q :: q in seen <==> 1 <= q <= m
    ensures Unseen(seen, page) == []
  {
    if page != [] {
      assert Last(page) == log[start + |page| - 1];
      NothingUnseen(log, seen, m, page[..|page| - 1], start);
    }
  }

  lemma {:induction false} UnseenIsRest(log: seq<CodexEvent>, seen: set<nat>, m: nat, page: seq<CodexEvent>, start: nat)
    requires Numbered(log) && start <= m < start + |page| && IsStretch(page, log, start)
    requires forall q :: q in seen <==> 1 <= q <= m
    ensures IsStretch(Unseen(seen, page), log, m) && |Unseen(seen, page)| == start + |page| - m
  {
    var front := page[..|page| - 1];
    assert Last(page) == log[start + |page| - 1];
    if m < start + |front| {
      UnseenIsRest(log, seen, m, front, start);
      assert Unseen(seen, page) == Unseen(seen, front) + [Last(page)];
    } else {
      NothingUnseen(log, seen, m, front, start);
      assert Unseen(seen, page) == [Last(page)];
    }
  }

  lemma PrefixSequences(log: seq<CodexEvent>, list: seq<CodexEvent>)
    requires Numbered(log) && IsPrefix(list, log)
    ensures forall q :: q in Sequences(list) <==> 1 <= q <= |list|
  {
    forall q | 1 <= q <= |list| ensures q in Sequences(list) {
      assert list[q - 1].sequence == q;
    }
  }

  /** Merging a stretch that starts inside a prefix extends the prefix to the end of the stretch. */
  lemma MergeExtendsPrefix(log: seq<CodexEvent>, list: seq<CodexEvent>, page: seq<CodexEvent>, start: nat)
    requires Numbered(log) && IsPrefix(list, log) && start <= |list| && IsStretch(page, log, start)
    ensures IsPrefix(Merged(list, page), log) && IsPrefix(list, Merged(list, page))
    ensures |Merged(list, page)| == if start + |page| <= |list| then |list| else start + |page|
  {
    PrefixSequences(log, list);
    if start + |page| <= |list| {
      NothingUnseen(log, Sequences(list), |list|, page, start);
    } else {
      UnseenIsRest(log, Sequences(list), |list|, page, start);
    }
    var joined := list + Unseen(Sequences(list), page);
    assert IsPrefix(joined, log);
    StretchIncreases(joined, log, 0);
    SortKeepsIncreasing(joined);
  }

  lemma AppendKeepsInv(s: Sys, draft: Draft, now: Instant)
    requires Inv(s)
    ensures Inv(Apply(s, Append(draft, now)))
  {
    AppendKeepsNumbers(s.rows, draft, now);
    var after := Appended(s.rows, draft, now);
    forall id ensures IsPrefix(Shown(s.lists, id), OfTask(after, id)) {
      assert IsPrefix(Shown(s.lists, id), OfTask(s.rows, id));
    }
    forall r | r in s.refreshes
      ensures RefreshInv(OfTask(after, s.refreshes[r].taskId), Shown(s.lists, s.refreshes[r].taskId), s.refreshes[r])
    {
      assert RefreshInv(OfTask(s.rows, s.refreshes[r].taskId), Shown(s.lists, s.refreshes[r].taskId), s.refreshes[r]);
    }
  }

  lemma GrownListKeepsInv(s: Sys, id: TaskId, list: seq<CodexEvent>)
    requires Inv(s) && IsPrefix(list, OfTask(s.rows, id)) && |Shown(s.lists, id)| <= |list|
    ensures Inv(s.(lists := s.lists[id := list]))
  {
  }

  lemma FailKeepsInv(s: Sys, r: nat)
    requires Inv(s)
    ensures Inv(s.(refreshes := s.refreshes - {r}))
  {
  }

  /** What an answered refresh makes of the list shown at that time. */
  lemma MergedIsPrefix(s: Sys, r: nat)
    requires Inv(s) && r in s.refreshes && s.refreshes[r].Answered?
    ensures var id, shown := s.refreshes[r].taskId, Shown(s.lists, s.refreshes[r].taskId);
            var merged := Merged(shown, s.refreshes[r].page);
            IsPrefix(merged, OfTask(s.rows, id)) && |shown| <= |merged| && IsPrefix(shown, merged)
  {
    var refresh := s.refreshes[r];
    var log, shown := OfTask(s.rows, refresh.taskId), Shown(s.lists, refresh.taskId);
    assert IsPrefix(shown, log) && RefreshInv(log, shown, refresh) && Numbered(log);
    MergeExtendsPrefix(log, shown, refresh.page, refresh.cursor);
  }

  lemma ShowKeepsInv(s: Sys, r: nat)
    requires Inv(s)
    ensures Inv(Apply(s, Show(r)))
  {
    if r in s.refreshes && s.refreshes[r].Answered? {
      var refresh := s.refreshes[r];
      if refresh.page == [] {
        FailKeepsInv(s, r);
      } else {
        var merged := Merged(Shown(s.lists, refresh.taskId), refresh.page);
        MergedIsPrefix(s, r);
        GrownListKeepsInv(s, refresh.taskId, merged);
        FailKeepsInv(s.(lists := s.lists[refresh.taskId := merged]), r);
      }
    }
  }

  lemma AnswerKeepsInv(s: Sys, r: nat, limit: nat)
    requires Inv(s)
    ensures Inv(Apply(s, Answer(r, limit)))
  {
    if r in s.refreshes && s.refreshes[r].Asked? {
      var asked := s.refreshes[r];
      var log, shown := OfTask(s.rows, asked.taskId), Shown(s.lists, asked.taskId);
      assert RefreshInv(log, shown, asked) && IsPrefix(shown, log) && Numbered(log);
      PageIsStretch(log, asked.cursor, limit);
    }
  }

  lemma AskKeepsInv(s: Sys, r: nat, id: TaskId)
    requires Inv(s)
    ensures Inv(Apply(s, Ask(r, id)))
  {
  }

  lemma {:induction false} RunKeepsInv(steps: seq<Step>)
    ensures Inv(Run(steps))
  {
    if steps != [] {
      var before := Run(steps[..|steps| - 1]);
      RunKeepsInv(steps[..|steps| - 1]);
      match Last(steps)
      case Append(draft, now) => AppendKeepsInv(before, draft, now);
      case Ask(r, id) => AskKeepsInv(before, r, id);
      case Answer(r, limit) => AnswerKeepsInv(before, r, limit);
      case Show(r) => ShowKeepsInv(before, r);
      case Fail(r) => FailKeepsInv(before, r);
    }
  }

  /** Under every interleaving of appends and overlapping refreshes, with any page limits and any failures,
      the client shows exactly the first m events of the engine's gapless log, in order. */
  lemma ClientShowsAPrefix(steps: seq<Step>, id: TaskId)
    ensures var s := Run(steps);
            var log, shown := OfTask(s.rows, id), Shown(s.lists, id);
            && Numbered(log)
            && |shown| <= |log| && shown == log[..|shown|]
            && Numbered(shown)
  {
    RunKeepsInv(steps);
    assert Numbered(OfTask(Run(steps).rows, id));
    assert IsPrefix(Shown(Run(steps).lists, id), OfTask(Run(steps).rows, id));
  }

  /** What is shown never shrinks or changes; it only grows at its end. */
  lemma ShownOnlyGrows(steps: seq<Step>, step: Step, id: TaskId)
    ensures IsPrefix(Shown(Run(steps).lists, id), Shown(Apply(Run(steps), step).lists, id))
  {
    var s := Run(steps);
    RunKeepsInv(steps);
    assert IsPrefix(Shown(s.lists, id), OfTask(s.rows, id));
    if step.Show? && step.refresh in s.refreshes && s.refreshes[step.refresh].Answered? {
      MergedIsPrefix(s, step.refresh);
    }
  }
}
