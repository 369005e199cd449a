/** The transcript folds streamed deltas into the items they belong to. */
module Transcript {
  import opened Base
  import opened CodexEvents

  datatype ItemKind = OperatorMessage | AgentMessage | Reasoning | Command | FileChange | Status | Unrecognized(value: string)

  datatype Item = Item(id: nat, kind: ItemKind, itemId: Option<string>, threadId: Option<string>, turnId: Option<string>,
                       occurredAt: Instant, content: string)

  datatype StreamingKey = StreamingKey(kind: ItemKind, itemId: string)

  function PresentationKind(kind: EventKind): Option<ItemKind> {
    match kind
    case UserMessage => Some(OperatorMessage)
    case UserSteer => Some(OperatorMessage)
    case TextDelta => Some(AgentMessage)
    case ReasoningDelta => Some(Reasoning)
    case CommandOutputDelta => Some(Command)
    case FileChangeDelta => Some(FileChange)
    case TurnCompleted => Some(Status)
    case Error => Some(Status)
    case ThreadStale => Some(Status)
    case Unknown(value) => Some(Unrecognized(value))
    case _ => None
  }

  predicate IsStreaming(kind: EventKind) {
    kind.TextDelta? || kind.ReasoningDelta? || kind.CommandOutputDelta? || kind.FileChangeDelta?
  }

  predicate IsShown(event: CodexEvent) { PresentationKind(event.kind).Some? }

  function TextOf(event: CodexEvent): string {
    if event.content.Some? then event.content.value else event.summary
  }

  /** The stream a delta belongs to; other events belong to none. */
  function KeyOf(event: CodexEvent): Option<StreamingKey> {
    if IsStreaming(event.kind) && event.itemId.Some? && IsShown(event)
    then Some(StreamingKey(PresentationKind(event.kind).value, event.itemId.value))
    else None
  }

  // ----- What a transcript is -----

  /** Whether the event at i starts an item: it is shown, and no earlier event belongs to its stream. */
  predicate Opens(events: seq<CodexEvent>, i: nat)
    requires i < |events|
  {
    && IsShown(events[i])
    && (KeyOf(events[i]).Some? ==> forall j :: 0 <= j < i ==> KeyOf(events[j]) != KeyOf(events[i]))
  }

  /** The positions that start items, in order. */
  function Openings(events: seq<CodexEvent>): seq<nat> {
    if events == [] then []
    else Openings(events[..|events| - 1]) + if Opens(events, |events| - 1) then [|events| - 1] else []
  }

  /** Everything a stream said, in order. */
  function Joined(events: seq<CodexEvent>, key: StreamingKey): string {
    if events == [] then ""
    else Joined(events[..|events| - 1], key) + if KeyOf(Last(events)) == Some(key) then TextOf(Last(events)) else ""
  }

  function ContentAt(events: seq<CodexEvent>, i: nat): string
    requires i < |events|
  {
    if KeyOf(events[i]).Some? then Joined(events, KeyOf(events[i]).value) else TextOf(events[i])
  }

  function ItemOf(event: CodexEvent, content: string): Item
    requires IsShown(event)
  {
    Item(event.sequence, PresentationKind(event.kind).value, event.itemId, event.threadId, event.turnId, event.occurredAt, content)
  }

  lemma {:induction false} OpeningsOpen(events: seq<CodexEvent>)
    ensures forall k :: 0 <= k < |Openings(events)| ==> Openings(events)[k] < |events| && Opens(events, Openings(events)[k])
    ensures forall k, l :: 0 <= k < l < |Openings(events)| ==> Openings(events)[k] < Openings(events)[l]
    ensures forall i :: 0 <= i < |events| && Opens(events, i) ==> i in Openings(events)
  {
    if events != [] {
      var front := events[..|events| - 1];
      OpeningsOpen(front);
      forall i | 0 <= i < |front|
        ensures Opens(events, i) == Opens(front, i)
      {
        assert forall j :: 0 <= j <= i ==> events[j] == front[j];
      }
    }
  }

  /** The declared meaning: one item per opening position, in order, holding its whole stream. */
  ghost predicate IsTranscript(items: seq<Item>, events: seq<CodexEvent>) {
    && |items| == |Openings(events)|
    && forall k :: 0 <= k < |items| ==>
         var i := Openings(events)[k];
         i < |events| && IsShown(events[i]) && items[k] == ItemOf(events[i], ContentAt(events, i))
  }

  // ----- The loop -----

  /** The index map names, for each stream seen so far, the item that its first delta opened. */
  ghost predicate IndexFits(index: map<StreamingKey, nat>, events: seq<CodexEvent>) {
    && (forall i :: 0 <= i < |events| && KeyOf(events[i]).Some? ==> KeyOf(events[i]).value in index)
    && forall key :: key in index ==>
         index[key] < |Openings(events)|
         && Openings(events)[index[key]] < |events|
         && KeyOf(events[Openings(events)[index[key]]]) == Some(key)
  }

  lemma NewOpening(index: map<StreamingKey, nat>, front: seq<CodexEvent>, event: CodexEvent)
    requires IndexFits(index, front) && IsShown(event)
    requires KeyOf(event).Some? ==> KeyOf(event).value !in index
    ensures Openings(front + [event]) == Openings(front) + [|front|]
    ensures ContentAt(front + [event], |front|) == TextOf(event)
  {
    var events := front + [event];
    assert events[..|front|] == front;
    assert Opens(events, |front|);
    if KeyOf(event).Some? {
      NothingJoined(front, KeyOf(event).value);
    }
  }

  lemma NewItem(items: seq<Item>, index: map<StreamingKey, nat>, front: seq<CodexEvent>, event: CodexEvent)
    requires IsTranscript(items, front) && IndexFits(index, front) && IsShown(event)
    requires KeyOf(event).Some? ==> KeyOf(event).value !in index
    ensures IsTranscript(items + [ItemOf(event, TextOf(event))], front + [event])
    ensures IndexFits(if KeyOf(event).Some? then index[KeyOf(event).value := |items|] else index, front + [event])
  {
    var events := front + [event];
    assert events[..|front|] == front;
    OpeningsOpen(front);
    NewOpening(index, front, event);
    forall k | 0 <= k < |items|
      ensures ContentAt(events, Openings(front)[k]) == ContentAt(front, Openings(front)[k])
    {
      var i := Openings(front)[k];
      assert Opens(front, i) && events[i] == front[i];
    }
  }

  lemma {:induction false} NothingJoined(events: seq<CodexEvent>, key: StreamingKey)
    requires forall i :: 0 <= i < |events| ==> KeyOf(events[i]) != Some(key)
    ensures Joined(events, key) == ""
  {
    if events != [] {
      NothingJoined(events[..|events| - 1], key);
    }
  }

  lemma {:induction false} FirstOfStream(events: seq<CodexEvent>, i: nat) returns (f: nat)
    requires i < |events| && KeyOf(events[i]).Some?
    ensures f <= i && KeyOf(events[f]) == KeyOf(events[i]) && Opens(events, f)
  {
    if Opens(events, i) {
      f := i;
    } else {
      var j: nat :| j < i && KeyOf(events[j]) == KeyOf(events[i]);
      f := FirstOfStream(events, j);
    }
  }

  lemma Extended(items: seq<Item>, index: map<StreamingKey, nat>, front: seq<CodexEvent>, event: CodexEvent)
    requires IsTranscript(items, front) && IndexFits(index, front)
    requires KeyOf(event).Some? && KeyOf(event).value in index
    ensures index[KeyOf(event).value] < |items|
    ensures var k := index[KeyOf(event).value];
            IsTranscript(items[k := items[k].(content := items[k].content + TextOf(event))], front + [event])
    ensures IndexFits(index, front + [event])
  {
    var events := front + [event];
    assert events[..|front|] == front;
    OpeningsOpen(front);
    var key := KeyOf(event).value;
    var k := index[key];
    assert KeyOf(front[Openings(front)[k]]) == Some(key);
    assert !Opens(events, |front|);
    assert Openings(events) == Openings(front);
    forall l | 0 <= l < |items|
      ensures ContentAt(events, Openings(front)[l]) == ContentAt(front, Openings(front)[l]) + if l == k then TextOf(event) else ""
    {
      var i := Openings(front)[l];
      assert Opens(front, i) && events[i] == front[i];
      if l < k { assert KeyOf(front[i]) != Some(key); }
    }
  }

  lemma Skipped(items: seq<Item>, index: map<StreamingKey, nat>, front: seq<CodexEvent>, event: CodexEvent)
    requires IsTranscript(items, front) && IndexFits(index, front) && !IsShown(event)
    ensures IsTranscript(items, front + [event]) && IndexFits(index, front + [event])
  {
    var events := front + [event];
    assert events[..|front|] == front;
    OpeningsOpen(front);
    assert Openings(events) == Openings(front);
  }

  /** Builds the transcript of events in any order. */
  method Build(events: seq<CodexEvent>) returns (items: seq<Item>, cursor: nat)
    ensures IsTranscript(items, SortBySequence(events))
    ensures events == [] ==> cursor == 0
    ensures events != [] ==> exists e :: e in events && e.sequence == cursor
    ensures forall e :: e in events ==> e.sequence <= cursor
  {
    var ordered := SortBySequence(events);
    CursorIsHighest(events);
    cursor := if ordered == [] then 0 else Last(ordered).sequence;
    items := [];
    var index: map<StreamingKey, nat> := map[];
    for n := 0 to |ordered|
      invariant IsTranscript(items, ordered[..n]) && IndexFits(index, ordered[..n])
    {
      var event := ordered[n];
      assert ordered[..n + 1] == ordered[..n] + [event];
      var kind := PresentationKind(event.kind);
      if kind.None? {
        Skipped(items, index, ordered[..n], event);
        continue;
      }
      var content := TextOf(event);
      if IsStreaming(event.kind) && event.itemId.Some? {
        var key := StreamingKey(kind.value, event.itemId.value);
        if key in index {
          Extended(items, index, ordered[..n], event);
          items := items[index[key] := items[index[key]].(content := items[index[key]].content + content)];
          continue;
        }
        NewItem(items, index, ordered[..n], event);
        index := index[key := |items|];
      } else {
        NewItem(items, index, ordered[..n], event);
      }
      items := items + [Item(event.sequence, kind.value, event.itemId, event.threadId, event.turnId, event.occurredAt, content)];
    }
    assert ordered[..|ordered|] == ordered;
  }

  lemma CursorIsHighest(events: seq<CodexEvent>)
    ensures var ordered := SortBySequence(events);
            && (ordered == [] <==> events == [])
            && (ordered != [] ==> Last(ordered) in events)
            && forall e :: e in events ==> ordered != [] && e.sequence <= Last(ordered).sequence
  {
  }

  // ----- What the reader of a transcript can rely on -----

  /** Which events are shown, as what, and which of them stream. */
  lemma ShownAs(event: CodexEvent)
    ensures var kind, shown := event.kind, PresentationKind(event.kind);
            && (shown == Some(OperatorMessage) <==> kind == UserMessage || kind == UserSteer)
            && (shown == Some(AgentMessage) <==> kind == TextDelta)
            && (shown == Some(Reasoning) <==> kind == ReasoningDelta)
            && (shown == Some(Command) <==> kind == CommandOutputDelta)
            && (shown == Some(FileChange) <==> kind == FileChangeDelta)
            && (shown == Some(Status) <==> kind == TurnCompleted || kind == EventKind.Error || kind == ThreadStale)
            && (forall value :: shown == Some(Unrecognized(value)) <==> kind == Unknown(value))
            && (shown == None <==> kind == ProcessStarted || kind == Initialized || kind == AccountRead || kind == ThreadReady
                                   || kind == ItemStarted || kind == ItemCompleted)
            && (KeyOf(event).Some? <==>
                  event.itemId != None
                  && (kind == TextDelta || kind == ReasoningDelta || kind == CommandOutputDelta || kind == FileChangeDelta))
            && (KeyOf(event).Some? ==> Some(KeyOf(event).value.kind) == shown && Some(KeyOf(event).value.itemId) == event.itemId)
            && TextOf(event) == (if event.content != None then event.content.value else event.summary)
  {
  }

  /** The declared transcript is unique. */
  lemma TranscriptIsUnique(first: seq<Item>, second: seq<Item>, events: seq<CodexEvent>)
    requires IsTranscript(first, events) && IsTranscript(second, events)
    ensures first == second
  {
  }

  lemma {:induction false} OpeningsExtend(events: seq<CodexEvent>, more: seq<CodexEvent>)
    ensures |Openings(events)| <= |Openings(events + more)|
    ensures Openings(events) == Openings(events + more)[..|Openings(events)|]
  {
    if more == [] {
      assert events + more == events;
    } else {
      var front := more[..|more| - 1];
      OpeningsExtend(events, front);
      assert (events + more)[..|events + more| - 1] == events + front;
    }
  }

  lemma {:induction false} JoinedExtends(events: seq<CodexEvent>, more: seq<CodexEvent>, key: StreamingKey)
    ensures Joined(events + more, key) == Joined(events, key) + Joined(more, key)
  {
    if more == [] {
      assert events + more == events;
    } else {
      var front := more[..|more| - 1];
      JoinedExtends(events, front, key);
      assert (events + more)[..|events + more| - 1] == events + front;
    }
  }

  /** Later events only extend the content of items that are there, or add items at the end. */
  lemma LaterEventsExtend(items: seq<Item>, longer: seq<Item>, events: seq<CodexEvent>, more: seq<CodexEvent>)
    requires IsTranscript(items, events) && IsTranscript(longer, events + more)
    ensures |items| <= |longer|
    ensures forall k :: 0 <= k < |items| ==>
              && longer[k] == items[k].(content := longer[k].content)
              && items[k].content <= longer[k].content
  {
    OpeningsExtend(events, more);
    forall k | 0 <= k < |items|
      ensures longer[k] == items[k].(content := longer[k].content) && items[k].content <= longer[k].content
    {
      var i := Openings(events)[k];
      assert Openings(events + more)[k] == i && (events + more)[i] == events[i];
      if KeyOf(events[i]).Some? {
        JoinedExtends(events, more, KeyOf(events[i]).value);
      }
    }
  }

  /** The total amount of text. */
  function Volume(events: seq<CodexEvent>): nat {
    if events == [] then 0
    else Volume(events[..|events| - 1]) + if IsShown(Last(events)) then |TextOf(Last(events))| else 0
  }

  function ContentVolume(items: seq<Item>): nat {
    if items == [] then 0 else ContentVolume(items[..|items| - 1]) + |Last(items).content|
  }

  lemma {:induction false} ContentVolumeUpdate(items: seq<Item>, k: nat, item: Item)
    requires k < |items|
    ensures ContentVolume(items[k := item]) + |items[k].content| == ContentVolume(items) + |item.content|
  {
    var after, front := items[k := item], items[..|items| - 1];
    if k == |items| - 1 {
      assert after[..|after| - 1] == front;
    } else {
      ContentVolumeUpdate(front, k, item);
      assert after[..|after| - 1] == front[k := item];
    }
  }

  lemma VolumeAfter(front: seq<CodexEvent>, event: CodexEvent)
    ensures Volume(front + [event]) == Volume(front) + if IsShown(event) then |TextOf(event)| else 0
  {
    assert (front + [event])[..|front|] == front;
  }

  lemma ContentVolumeAfter(items: seq<Item>, item: Item)
    ensures ContentVolume(items + [item]) == ContentVolume(items) + |item.content|
  {
    assert (items + [item])[..|items|] == items;
  }

  /** No text is lost and none appears twice: the items hold exactly as much as the shown events said. */
  lemma {:induction false} NothingLostOrRepeated(items: seq<Item>, events: seq<CodexEvent>)
    requires IsTranscript(items, events)
    ensures ContentVolume(items) == Volume(events)
    decreases |events|
  {
    if events != [] {
      var front, event := events[..|events| - 1], Last(events);
      assert events == front + [event];
      var before, index := Folded(front);
      NothingLostOrRepeated(before, front);
      VolumeAfter(front, event);
      var after := OneMore(before, index, front, event);
      TranscriptIsUnique(items, after, events);
    }
  }

  /** The transcript after one more event holds exactly its text more. */
  lemma OneMore(before: seq<Item>, index: map<StreamingKey, nat>, front: seq<CodexEvent>, event: CodexEvent)
    returns (after: seq<Item>)
    requires IsTranscript(before, front) && IndexFits(index, front)
    ensures IsTranscript(after, front + [event])
    ensures ContentVolume(after) == ContentVolume(before) + if IsShown(event) then |TextOf(event)| else 0
  {
    if !IsShown(event) {
      Skipped(before, index, front, event);
      after := before;
    } else if KeyOf(event).Some? && KeyOf(event).value in index {
      var k := index[KeyOf(event).value];
      Extended(before, index, front, event);
      var item := before[k].(content := before[k].content + TextOf(event));
      after := before[k := item];
      ContentVolumeUpdate(before, k, item);
    } else {
      NewItem(before, index, front, event);
      after := before + [ItemOf(event, TextOf(event))];
      ContentVolumeAfter(before, ItemOf(event, TextOf(event)));
    }
  }

  /** Every list of events has a transcript, and an index that fits it. */
  lemma {:induction false} Folded(events: seq<CodexEvent>) returns (items: seq<Item>, index: map<StreamingKey, nat>)
    ensures IsTranscript(items, events) && IndexFits(index, events)
  {
    if events == [] {
      items, index := [], map[];
    } else {
      var front, event := events[..|events| - 1], Last(events);
      assert events == front + [event];
      items, index := Folded(front);
      if !IsShown(event) {
        Skipped(items, index, front, event);
      } else if KeyOf(event).Some? && KeyOf(event).value in index {
        Extended(items, index, front, event);
        var k := index[KeyOf(event).value];
        items := items[k := items[k].(content := items[k].content + TextOf(event))];
      } else {
        NewItem(items, index, front, event);
        index := if KeyOf(event).Some? then index[KeyOf(event).value := |items|] else index;
        items := items + [ItemOf(event, TextOf(event))];
      }
    }
  }

  /** Each shown event speaks in exactly one item: its own, or the one that its stream opened. */
  lemma EveryEventHasOneItem(events: seq<CodexEvent>, j: nat) returns (k: nat)
    requires j < |events| && IsShown(events[j])
    ensures k < |Openings(events)| && Openings(events)[k] <= j
    ensures Speaks(events, j, Openings(events)[k])
    ensures forall l :: 0 <= l < |Openings(events)| && Speaks(events, j, Openings(events)[l]) ==> l == k
  {
    OpeningsOpen(events);
    var f := j;
    if KeyOf(events[j]).Some? {
      f := FirstOfStream(events, j);
    }
    assert f in Openings(events);
    k :| 0 <= k < |Openings(events)| && Openings(events)[k] == f;
    forall l | 0 <= l < |Openings(events)| && Speaks(events, j, Openings(events)[l]) ensures l == k {
      var i := Openings(events)[l];
      assert Opens(events, i) && Opens(events, f);
    }
  }

  predicate Speaks(events: seq<CodexEvent>, j: nat, opening: nat)
    requires j < |events|
  {
    opening < |events| && if KeyOf(events[j]).Some? then KeyOf(events[opening]) == KeyOf(events[j]) else opening == j
  }
}
