/** What streamAssistantResponse of packages/agent/src/agent-loop.ts does to the context and
    to the trace, for every stream, protocol-abiding or not. */
module Streaming {
  import opened Messages

  /** A model response: the events its iteration yields, and the message result() gives. */
  datatype ModelStream = ModelStream(events: seq<StreamEvent>, result: AssistantMessage)

  /** How many events are consumed before the first done or error event, or the end. */
  function LiveCount(events: seq<StreamEvent>): (n: nat)
    ensures n <= |events| && (n < |events| ==> events[n].EndEvent?)
    ensures forall k :: 0 <= k < n ==> !events[k].EndEvent?
  {
    if events == [] || events[0].EndEvent? then 0 else 1 + LiveCount(events[1..])
  }

  function Live(s: ModelStream): seq<StreamEvent> {
    s.events[..LiveCount(s.events)]
  }

  /** The number of start events. */
  function Starts(events: seq<StreamEvent>): nat {
    if events == [] then 0
    else Starts(events[..|events| - 1]) + if events[|events| - 1].StartEvent? then 1 else 0
  }

  lemma {:induction false} StartsUpTo(events: seq<StreamEvent>, i: nat)
    requires i <= |events|
    ensures Starts(events[..i]) <= Starts(events)
    decreases |events|
  {
    if i < |events| {
      StartsUpTo(events[..|events| - 1], i);
      assert events[..|events| - 1][..i] == events[..i];
    } else {
      assert events[..i] == events;
    }
  }

  lemma StartsSoFar(s: ModelStream, i: nat)
    requires i <= LiveCount(s.events)
    ensures Starts(s.events[..i]) <= Starts(Live(s))
  {
    StartsUpTo(Live(s), i);
    assert Live(s)[..i] == s.events[..i];
  }

  /** The update events that follow some start event. */
  function UpdatesAfterStart(events: seq<StreamEvent>): nat {
    if events == [] then 0
    else
      var init := events[..|events| - 1];
      UpdatesAfterStart(init) + if events[|events| - 1].DeltaEvent? && Starts(init) > 0 then 1 else 0
  }

  /** The entries a stream has appended to the context: a start appends its partial, a later
      event overwrites the last entry in place. */
  function Slots(events: seq<StreamEvent>): seq<Message> {
    if events == [] then []
    else
      var slots := Slots(events[..|events| - 1]);
      match events[|events| - 1]
      case StartEvent(p) => slots + [p]
      case DeltaEvent(p) => if slots == [] then slots else slots[|slots| - 1 := p]
      case EndEvent => slots
  }

  function Close(slots: seq<Message>, final: Message): seq<Message> {
    if slots == [] then [final] else slots[|slots| - 1 := final]
  }

  function Emissions(events: seq<StreamEvent>): seq<Event> {
    if events == [] then []
    else
      var init, e := events[..|events| - 1], events[|events| - 1];
      Emissions(init) +
      match e
      case StartEvent(p) => [MessageStart(p)]
      case DeltaEvent(p) => if Slots(init) == [] then [] else [MessageUpdate(p, e)]
      case EndEvent => []
  }

  /** What the context gains. */
  function Appended(s: ModelStream): seq<Message> {
    Close(Slots(Live(s)), s.result)
  }

  /** What the trace gains. */
  function StreamTrace(s: ModelStream): seq<Event> {
    Emissions(Live(s)) + (if Slots(Live(s)) == [] then [MessageStart(s.result)] else []) + [MessageEnd(s.result)]
  }

  lemma {:induction false} SlotsCount(events: seq<StreamEvent>)
    ensures |Slots(events)| == Starts(events)
  {
    if events != [] {
      SlotsCount(events[..|events| - 1]);
    }
  }

  /** One more event. */
  lemma Consume(events: seq<StreamEvent>, i: nat)
    requires i < |events|
    ensures var slots := Slots(events[..i]);
            && Slots(events[..i + 1]) ==
               (match events[i]
                case StartEvent(p) => slots + [p]
                case DeltaEvent(p) => if slots == [] then slots else slots[|slots| - 1 := p]
                case EndEvent => slots)
            && Emissions(events[..i + 1]) ==
               Emissions(events[..i]) +
               (match events[i]
                case StartEvent(p) => [MessageStart(p)]
                case DeltaEvent(p) => if slots == [] then [] else [MessageUpdate(p, events[i])]
                case EndEvent => [])
    ensures Starts(events[..i + 1]) == Starts(events[..i]) + if events[i].StartEvent? then 1 else 0
    ensures Slots(events[..i]) == [] <==> Starts(events[..i]) == 0
  {
    assert events[..i + 1][..i] == events[..i];
    SlotsCount(events[..i]);
  }

  /** The entry of a start holds the partial of the latest event before the next start: at the
      end, that of the latest event of all. */
  lemma {:induction false} SlotAt(events: seq<StreamEvent>, i: nat, j: nat)
    requires i < j <= |events| && events[i].StartEvent? && forall k :: i < k < j ==> events[k].DeltaEvent?
    requires j < |events| ==> events[j].StartEvent?
    requires forall k :: 0 <= k < |events| ==> !events[k].EndEvent?
    ensures Starts(events[..i]) < |Slots(events)| && Slots(events)[Starts(events[..i])] == events[j - 1].partial
    decreases |events|
  {
    hide Slots, Starts, Emissions;
    var n := |events| - 1;
    SlotsCount(events[..i]);
    SlotsCount(events[..n]);
    SlotsCount(events);
    Consume(events, n);
    assert events[..n + 1] == events;
    if j < |events| {
      assert events[..n][..i] == events[..i];
      StartsGrow(events, i, j);
      if j < n {
        SlotAt(events[..n], i, j);
        StartsGrow(events, j, n);
      } else {
        SlotAt(events[..n], i, n);
      }
    } else if i < n {
      assert events[..n][..i] == events[..i];
      SlotAt(events[..n], i, n);
      OneStart(events, i, n);
    }
  }

  /** There are more starts before j than before i, if i is one. */
  lemma {:induction false} StartsGrow(events: seq<StreamEvent>, i: nat, j: nat)
    requires i < j <= |events| && events[i].StartEvent?
    ensures Starts(events[..i]) < Starts(events[..j])
    decreases j
  {
    Consume(events, j - 1);
    if i < j - 1 {
      StartsGrow(events, i, j - 1);
    }
  }

  lemma {:induction false} OneStart(events: seq<StreamEvent>, i: nat, j: nat)
    requires i < j <= |events| && events[i].StartEvent? && forall k :: i < k < j ==> !events[k].StartEvent?
    ensures Starts(events[..j]) == Starts(events[..i]) + 1
    decreases j
  {
    Consume(events, j - 1);
    if i < j - 1 {
      OneStart(events, i, j - 1);
    }
  }

  /** What a start, and an update after some start, emits, and where it stands in the trace; an
      update before any start emits nothing. */
  lemma EmissionAt(events: seq<StreamEvent>, i: nat)
    requires i < |events|
    ensures var k := |Emissions(events[..i])|;
            if events[i].EndEvent? || (events[i].DeltaEvent? && Starts(events[..i]) == 0)
            then Emissions(events[..i + 1]) == Emissions(events[..i])
            else
              && |Emissions(events[..i + 1])| == k + 1 && Emissions(events[..i + 1]) <= Emissions(events)
              && Emissions(events)[k] == if events[i].StartEvent? then MessageStart(events[i].partial)
                                         else MessageUpdate(events[i].partial, events[i])
  {
    Consume(events, i);
    EmissionsGrow(events, i + 1);
  }

  lemma {:induction false} EmissionsGrow(events: seq<StreamEvent>, i: nat)
    requires i <= |events|
    ensures Emissions(events[..i]) <= Emissions(events)
    decreases |events|
  {
    if i < |events| {
      EmissionsGrow(events[..|events| - 1], i);
      assert events[..|events| - 1][..i] == events[..i];
    } else {
      assert events[..i] == events;
    }
  }

  /** The context gains exactly one entry, the final message, if and only if the stream has
      at most one start; each further start leaves one abandoned partial behind. */
  lemma StreamingNetsOneAppend(s: ModelStream)
    ensures Appended(s) == [s.result] <==> Starts(Live(s)) <= 1
    ensures |Appended(s)| == if Starts(Live(s)) == 0 then 1 else Starts(Live(s))
    ensures Appended(s)[|Appended(s)| - 1] == s.result
    ensures forall k :: 0 <= k < |Appended(s)| - 1 ==> k < |Slots(Live(s))| && Appended(s)[k] == Slots(Live(s))[k]
  {
    SlotsCount(Live(s));
  }

  function CountStarts(trace: seq<Event>): nat {
    if trace == [] then 0 else CountStarts(trace[..|trace| - 1]) + if trace[|trace| - 1].MessageStart? then 1 else 0
  }

  function CountUpdates(trace: seq<Event>): nat {
    if trace == [] then 0 else CountUpdates(trace[..|trace| - 1]) + if trace[|trace| - 1].MessageUpdate? then 1 else 0
  }

  lemma CountsNext(trace: seq<Event>, e: Event)
    ensures CountStarts(trace + [e]) == CountStarts(trace) + if e.MessageStart? then 1 else 0
    ensures CountUpdates(trace + [e]) == CountUpdates(trace) + if e.MessageUpdate? then 1 else 0
    ensures Ended(trace + [e]) == Ended(trace) + if e.MessageEnd? then [e.message] else []
  {
    assert (trace + [e])[..|trace|] == trace;
  }

  lemma {:induction false} EmissionCounts(events: seq<StreamEvent>)
    ensures CountStarts(Emissions(events)) == Starts(events)
    ensures CountUpdates(Emissions(events)) == UpdatesAfterStart(events)
    ensures Ended(Emissions(events)) == []
  {
    if events != [] {
      var init, e := events[..|events| - 1], events[|events| - 1];
      EmissionCounts(init);
      SlotsCount(init);
      var one := match e
        case StartEvent(p) => MessageStart(p)
        case DeltaEvent(p) => MessageUpdate(p, e)
        case EndEvent => AgentStart;
      CountsNext(Emissions(init), one);
      assert Emissions(init) + [] == Emissions(init);
    }
  }

  lemma {:induction false} NothingBeforeStart(events: seq<StreamEvent>)
    requires Starts(events) == 0
    ensures Emissions(events) == []
  {
    if events != [] {
      NothingBeforeStart(events[..|events| - 1]);
      SlotsCount(events[..|events| - 1]);
    }
  }

  /** The trace gains one message_start per start event (one if there is none), one update
      per update event seen after a start, and one message_end, for the final message. */
  lemma StreamTraceCounts(s: ModelStream)
    ensures CountStarts(StreamTrace(s)) == if Starts(Live(s)) == 0 then 1 else Starts(Live(s))
    ensures CountUpdates(StreamTrace(s)) == UpdatesAfterStart(Live(s))
    ensures Ended(StreamTrace(s)) == [s.result]
    ensures Emissions(Live(s)) <= StreamTrace(s) && StreamTrace(s)[|StreamTrace(s)| - 1] == MessageEnd(s.result)
    ensures Starts(Live(s)) == 0 ==> StreamTrace(s) == [MessageStart(s.result), MessageEnd(s.result)]
  {
    if Starts(Live(s)) == 0 {
      NothingBeforeStart(Live(s));
    }
    var emitted := Emissions(Live(s));
    EmissionCounts(Live(s));
    SlotsCount(Live(s));
    if Slots(Live(s)) == [] {
      CountsNext(emitted, MessageStart(s.result));
      CountsNext(emitted + [MessageStart(s.result)], MessageEnd(s.result));
    } else {
      assert emitted + [] == emitted;
      CountsNext(emitted, MessageEnd(s.result));
    }
  }
}
