/** The event grammar of a run, as a monitor that reads the emitted trace one event at a
    time (packages/agent/src/types.ts, the AgentEvent protocol). The monitor knows nothing
    of the loop that emits; it rejects by moving to Bad, which it never leaves. */
module Grammar {
  import opened Basics
  import opened Messages

  datatype Bracket = Closed | Open(message: Message)

  datatype Monitor =
    | Fresh                                  // nothing emitted
    | Started                                // after agent_start
    | Gap(ended: seq<Message>, more: bool)   // after a turn_end; more: it reported tool results
    | Talking(ended: seq<Message>, bracket: Bracket, last: Option<Message>)
                                             // in a turn, before its first tool call
    | Tooling(ended: seq<Message>, bracket: Bracket, response: AssistantMessage, todo: seq<ToolCall>,
              running: multiset<string>, due: Option<Message>, results: seq<Message>)
                                             // in a turn, from its first tool call on
    | Over(ended: seq<Message>)              // after agent_end
    | Bad

  /** Calls of a response must start in source order; in sequential mode a call may start
      only when none is running. */
  predicate MayStart(mode: ToolMode, todo: seq<ToolCall>, running: multiset<string>, e: Event)
    requires e.ToolStart?
  {
    todo != [] && todo[0] == ToolCall(e.id, e.name, e.args) && (mode == Sequential ==> running == multiset{})
  }

  function Next(mode: ToolMode, s: Monitor, e: Event): Monitor {
    match s
    case Fresh => if e.AgentStart? then Started else Bad
    case Started => if e.TurnStart? then Talking([], Closed, None) else Bad
    case Gap(ended, more) =>
      if e.TurnStart? then Talking(ended, Closed, None)
      else if e == AgentEnd(ended) && !more then Over(ended)
      else Bad
    case Talking(ended, bracket, last) => NextTalking(mode, ended, bracket, last, e)
    case Tooling(_, _, _, _, _, _, _) => NextTooling(mode, s, e)
    case Over(_) => Bad
    case Bad => Bad
  }

  function NextTalking(mode: ToolMode, ended: seq<Message>, bracket: Bracket, last: Option<Message>, e: Event)
    : Monitor
  {
    match e
    case MessageStart(m) => if bracket.Closed? then Talking(ended, Open(m), last) else Bad
    case MessageUpdate(m, _) =>
      if bracket.Open? && bracket.message.Assistant? && m.Assistant? then Talking(ended, Open(m), last) else Bad
    case MessageEnd(m) =>
      if bracket.Open? && (bracket.message == m || (bracket.message.Assistant? && m.Assistant?))
      then Talking(ended + [m], Closed, Some(m)) else Bad
    case ToolStart(id, name, args) =>
      if bracket.Closed? && last.Some? && last.value.Assistant? && !Failed(last.value) &&
         MayStart(mode, ToolCalls(last.value), multiset{}, e)
      then Tooling(ended, Closed, last.value, ToolCalls(last.value)[1..], multiset{id}, None, []) else Bad
    case TurnEnd(m, results) =>
      if bracket.Closed? && last == Some(m) && m.Assistant? && results == [] && (Failed(m) || ToolCalls(m) == [])
      then Gap(ended, false) else Bad
    case _ => Bad
  }

  function NextTooling(mode: ToolMode, s: Monitor, e: Event): Monitor
    requires s.Tooling?
  {
    match e
    case ToolStart(id, name, args) =>
      if s.bracket.Closed? && s.due.None? && MayStart(mode, s.todo, s.running, e)
      then s.(todo := s.todo[1..], running := s.running + multiset{id}) else Bad
    case ToolUpdate(id, _, _, _) => if id in s.running then s else Bad
    case ToolEnd(id, name, output, isError) =>
      if id in s.running && s.bracket.Closed? && s.due.None?
      then s.(running := s.running - multiset{id}, due := Some(ToolResult(id, name, output, isError))) else Bad
    case MessageStart(m) =>
      if s.bracket.Closed? && s.due == Some(m) then s.(bracket := Open(m)) else Bad
    case MessageEnd(m) =>
      if s.bracket == Open(m)
      then s.(ended := s.ended + [m], bracket := Closed, due := None, results := s.results + [m])
      else Bad
    case TurnEnd(m, results) =>
      if s.bracket.Closed? && s.due.None? && s.todo == [] && s.running == multiset{} &&
         m == s.response && results == s.results
      then Gap(s.ended, true) else Bad
    case _ => Bad
  }

  function Run(mode: ToolMode, trace: seq<Event>): Monitor {
    if trace == [] then Fresh else Next(mode, Run(mode, trace[..|trace| - 1]), trace[|trace| - 1])
  }

  /** A run's trace is well formed so far. */
  predicate Accepts(mode: ToolMode, trace: seq<Event>) {
    Run(mode, trace) != Bad
  }

  /** A complete run's trace. */
  predicate Complete(mode: ToolMode, trace: seq<Event>) {
    Run(mode, trace).Over?
  }

  lemma RunNext(mode: ToolMode, trace: seq<Event>, e: Event)
    ensures Run(mode, trace + [e]) == Next(mode, Run(mode, trace), e)
  {
    assert (trace + [e])[..|trace|] == trace;
  }

  /** One message bracket in a turn. */
  lemma BracketNext(mode: ToolMode, ended: seq<Message>, last: Option<Message>, m: Message)
    ensures Next(mode, Talking(ended, Closed, last), MessageStart(m)) == Talking(ended, Open(m), last)
    ensures Next(mode, Talking(ended, Open(m), last), MessageEnd(m)) == Talking(ended + [m], Closed, Some(m))
  {
  }

  // ---------------------------------------------------------------- what acceptance means

  lemma {:induction false} PrefixAccepted(mode: ToolMode, trace: seq<Event>, i: nat)
    requires Accepts(mode, trace) && i <= |trace|
    ensures Accepts(mode, trace[..i])
    decreases |trace|
  {
    if i < |trace| {
      assert trace[..i] == trace[..|trace| - 1][..i];
      PrefixAccepted(mode, trace[..|trace| - 1], i);
    } else {
      assert trace[..i] == trace;
    }
  }

  /** The event at i was accepted in the state reached by the events before it. */
  lemma StepAt(mode: ToolMode, trace: seq<Event>, i: nat)
    requires Accepts(mode, trace) && i < |trace|
    ensures Accepts(mode, trace[..i]) && Accepts(mode, trace[..i + 1])
    ensures Run(mode, trace[..i + 1]) == Next(mode, Run(mode, trace[..i]), trace[i])
  {
    hide Next;
    PrefixAccepted(mode, trace, i);
    PrefixAccepted(mode, trace, i + 1);
    assert trace[..i + 1][..i] == trace[..i];
  }

  function EndedOf(s: Monitor): seq<Message> {
    if s.Gap? || s.Talking? || s.Tooling? || s.Over? then s.ended else []
  }

  lemma EndedNext(mode: ToolMode, s: Monitor, e: Event)
    requires Next(mode, s, e) != Bad
    ensures EndedOf(Next(mode, s, e)) == EndedOf(s) + if e.MessageEnd? then [e.message] else []
  {
    hide ToolCalls, MayStart;
  }

  /** The monitor's list is the trace's message_end messages. */
  lemma {:induction false} EndedIsTraced(mode: ToolMode, trace: seq<Event>)
    requires Accepts(mode, trace)
    ensures EndedOf(Run(mode, trace)) == Ended(trace)
  {
    hide Next, EndedOf;
    if trace != [] {
      StepAt(mode, trace, |trace| - 1);
      assert trace[..|trace| - 1 + 1] == trace;
      EndedIsTraced(mode, trace[..|trace| - 1]);
      EndedNext(mode, Run(mode, trace[..|trace| - 1]), trace[|trace| - 1]);
    } else {
      assert EndedOf(Run(mode, trace)) == [] by { EndedOfFresh(); }
    }
  }

  lemma EndedOfFresh()
    ensures EndedOf(Fresh) == []
  {
  }

  lemma NextLegal(mode: ToolMode, s: Monitor, e: Event)
    requires Next(mode, s, e) != Bad
    ensures e.AgentStart? <==> s.Fresh?
    ensures e.AgentEnd? <==> Next(mode, s, e).Over?
    ensures e.AgentEnd? ==> s.Gap? && !s.more && e.messages == EndedOf(s)
    ensures e.TurnEnd? <==> Next(mode, s, e).Gap?
    ensures !s.Over? && !Next(mode, s, e).Fresh?
  {
  }

  lemma {:induction false} Inside(mode: ToolMode, trace: seq<Event>, i: nat)
    requires Accepts(mode, trace) && i + 1 < |trace|
    ensures i == 0 ==> trace[i] == AgentStart
    ensures i > 0 ==> !trace[i].AgentStart? && !trace[i].AgentEnd?
  {
    hide Next;
    StepAt(mode, trace, i);
    StepAt(mode, trace, i + 1);
    NextLegal(mode, Run(mode, trace[..i]), trace[i]);
    NextLegal(mode, Run(mode, trace[..i + 1]), trace[i + 1]);
    if i > 0 {
      StepAt(mode, trace, i - 1);
      NextLegal(mode, Run(mode, trace[..i - 1]), trace[i - 1]);
    }
  }

  /** The last message a turn ended is remembered, and is the response where a turn may end
      the run. */
  ghost predicate Remembers(s: Monitor) {
    && (s.Talking? && s.last.Some? ==> s.ended != [] && s.ended[|s.ended| - 1] == s.last.value)
    && (s.Gap? && !s.more ==> s.ended != [] && s.ended[|s.ended| - 1].Assistant?)
  }

  lemma RemembersNext(mode: ToolMode, s: Monitor, e: Event)
    requires Remembers(s)
    ensures Remembers(Next(mode, s, e))
  {
    hide ToolCalls;
  }

  lemma {:induction false} AlwaysRemembers(mode: ToolMode, trace: seq<Event>)
    ensures Remembers(Run(mode, trace))
  {
    hide Next, Remembers;
    if trace != [] {
      AlwaysRemembers(mode, trace[..|trace| - 1]);
      RemembersNext(mode, Run(mode, trace[..|trace| - 1]), trace[|trace| - 1]);
    } else {
      assert Remembers(Fresh) by { FreshRemembers(); }
    }
  }

  lemma FreshRemembers()
    ensures Remembers(Fresh)
  {
  }

  lemma LastTurnEnd(mode: ToolMode, s: Monitor, e: Event)
    requires e.TurnEnd? && Next(mode, s, e).Gap? && !Next(mode, s, e).more
    requires Remembers(s)
    ensures e.toolResults == [] && e.response.Assistant?
    ensures EndedOf(s) != [] && EndedOf(s)[|EndedOf(s)| - 1] == e.response
  {
    hide ToolCalls;
  }

  /** A complete trace opens with agent_start and closes with agent_end right after a
      turn_end that reports no tool results, has no other of either, and its agent_end
      carries every message_end message of the run in order, the last of them the response
      of that turn_end. */
  lemma CompleteShape(mode: ToolMode, trace: seq<Event>)
    requires Complete(mode, trace)
    ensures |trace| >= 2 && trace[0] == AgentStart && trace[|trace| - 1] == AgentEnd(Ended(trace))
    ensures trace[|trace| - 2].TurnEnd? && trace[|trace| - 2].toolResults == []
    ensures var ended := Ended(trace);
            ended != [] && ended[|ended| - 1].Assistant? && ended[|ended| - 1] == trace[|trace| - 2].response
    ensures forall i :: 0 < i < |trace| - 1 ==> !trace[i].AgentStart? && !trace[i].AgentEnd?
  {
    hide Next, EndedOf, Remembers;
    var n := |trace| - 1;
    assert trace[..n + 1] == trace;
    StepAt(mode, trace, n);
    NextLegal(mode, Run(mode, trace[..n]), trace[n]);
    EndedIsTraced(mode, trace[..n]);
    StepAt(mode, trace, n - 1);
    NextLegal(mode, Run(mode, trace[..n - 1]), trace[n - 1]);
    AlwaysRemembers(mode, trace[..n - 1]);
    LastTurnEnd(mode, Run(mode, trace[..n - 1]), trace[n - 1]);
    EndedIsTraced(mode, trace[..n - 1]);
    assert trace[..n][..n - 1] == trace[..n - 1];
    forall i | 0 <= i < n
      ensures i == 0 ==> trace[i] == AgentStart
      ensures i > 0 ==> !trace[i].AgentStart? && !trace[i].AgentEnd?
    {
      Inside(mode, trace, i);
    }
  }

  predicate InTurn(s: Monitor) {
    s.Talking? || s.Tooling?
  }

  lemma NextInTurn(mode: ToolMode, s: Monitor, e: Event)
    requires Next(mode, s, e) != Bad
    ensures e.TurnStart? ==> !InTurn(s) && InTurn(Next(mode, s, e))
    ensures e.TurnEnd? ==> InTurn(s) && !InTurn(Next(mode, s, e))
    ensures !e.TurnStart? && !e.TurnEnd? ==> InTurn(Next(mode, s, e)) == InTurn(s)
  {
    hide ToolCalls;
  }

  /** While no turn starts or ends, nothing changes about being in one. */
  lemma {:induction false} StaysInTurn(mode: ToolMode, trace: seq<Event>, i: nat, j: nat)
    requires Accepts(mode, trace) && i <= j <= |trace|
    requires forall k :: i <= k < j ==> !trace[k].TurnStart? && !trace[k].TurnEnd?
    ensures InTurn(Run(mode, trace[..j])) == InTurn(Run(mode, trace[..i]))
    decreases j
  {
    hide Next, InTurn;
    if i < j {
      StepAt(mode, trace, j - 1);
      NextInTurn(mode, Run(mode, trace[..j - 1]), trace[j - 1]);
      StaysInTurn(mode, trace, i, j - 1);
    }
  }

  /** Turns alternate: between two turn_starts there is a turn_end, and between two turn_ends a
      turn_start. */
  lemma TurnsAlternate(mode: ToolMode, trace: seq<Event>, i: nat, j: nat)
    requires Accepts(mode, trace) && i < j < |trace|
    requires (trace[i].TurnStart? && trace[j].TurnStart?) || (trace[i].TurnEnd? && trace[j].TurnEnd?)
    ensures exists k :: i < k < j && if trace[i].TurnStart? then trace[k].TurnEnd? else trace[k].TurnStart?
  {
    hide Next, InTurn;
    FirstBoundary(trace, i, j);
    var n :| i < n <= j && (trace[n].TurnStart? || trace[n].TurnEnd?)
             && forall k :: i < k < n ==> !trace[k].TurnStart? && !trace[k].TurnEnd?;
    StepAt(mode, trace, i);
    StepAt(mode, trace, n);
    NextInTurn(mode, Run(mode, trace[..i]), trace[i]);
    NextInTurn(mode, Run(mode, trace[..n]), trace[n]);
    StaysInTurn(mode, trace, i + 1, n);
  }

  lemma FirstBoundary(trace: seq<Event>, i: nat, j: nat)
    requires i < j < |trace| && (trace[j].TurnStart? || trace[j].TurnEnd?)
    ensures exists n :: i < n <= j && (trace[n].TurnStart? || trace[n].TurnEnd?)
                        && forall k :: i < k < n ==> !trace[k].TurnStart? && !trace[k].TurnEnd?
    decreases j
  {
    if k :| i < k < j && (trace[k].TurnStart? || trace[k].TurnEnd?) {
      FirstBoundary(trace, i, k);
    }
  }

  predicate IsOpen(s: Monitor) {
    (s.Talking? || s.Tooling?) && s.bracket.Open?
  }

  lemma NextInBracket(mode: ToolMode, s: Monitor, e: Event)
    requires Next(mode, s, e) != Bad
    ensures e.MessageStart? ==> !IsOpen(s) && IsOpen(Next(mode, s, e))
    ensures IsOpen(s) && !e.MessageEnd? ==> IsOpen(Next(mode, s, e)) && (e.MessageUpdate? || e.ToolUpdate?)
  {
  }

  /** While no message_end comes, an open message bracket stays open. */
  lemma {:induction false} StaysOpen(mode: ToolMode, trace: seq<Event>, i: nat, j: nat)
    requires Accepts(mode, trace) && i < j <= |trace| && trace[i].MessageStart?
    requires forall k :: i < k < j ==> !trace[k].MessageEnd?
    ensures IsOpen(Run(mode, trace[..j]))
    decreases j
  {
    hide Next, IsOpen;
    StepAt(mode, trace, j - 1);
    NextInBracket(mode, Run(mode, trace[..j - 1]), trace[j - 1]);
    if i < j - 1 {
      StaysOpen(mode, trace, i, j - 1);
    }
  }

  /** Message brackets never nest or overlap: whatever follows a message_start before its
      message_end is an update of that message or of a running tool. */
  lemma BracketsDoNotNest(mode: ToolMode, trace: seq<Event>, i: nat, j: nat)
    requires Accepts(mode, trace) && i < j < |trace| && trace[i].MessageStart?
    ensures (exists k :: i < k <= j && trace[k].MessageEnd?) || trace[j].MessageUpdate? || trace[j].ToolUpdate?
  {
    hide Next, IsOpen;
    if forall k :: i < k <= j ==> !trace[k].MessageEnd? {
      StaysOpen(mode, trace, i, j);
      StepAt(mode, trace, j);
      NextInBracket(mode, Run(mode, trace[..j]), trace[j]);
    }
  }

  // ---------------------------------------------------------------- tool calls in a trace

  function DueIds(due: Option<Message>): multiset<string> {
    if due.Some? && due.value.ToolResult? then multiset{due.value.toolCallId} else multiset{}
  }

  /** Inside the tool part of a turn, every started call is running, or its result message
      is being delivered, or its result has been delivered: none is lost or doubled. */
  ghost predicate Accounted(s: Monitor) {
    s.Tooling? ==>
      && |s.todo| <= |ToolCalls(s.response)|
      && s.todo == ToolCalls(s.response)[|ToolCalls(s.response)| - |s.todo|..]
      && (s.due.Some? ==> s.due.value.ToolResult?)
      && (s.bracket.Open? ==> s.due == Some(s.bracket.message))
      && (forall r :: r in s.results ==> r.ToolResult?)
      && multiset(CallIds(ToolCalls(s.response)[..|ToolCalls(s.response)| - |s.todo|]))
         == s.running + DueIds(s.due) + multiset(ResultIds(s.results))
  }

  lemma CallsNext(calls: seq<ToolCall>, n: nat)
    requires n < |calls|
    ensures calls[n..][0] == calls[n] && calls[n..][1..] == calls[n + 1..]
    ensures multiset(CallIds(calls[..n + 1])) == multiset(CallIds(calls[..n])) + multiset{calls[n].id}
  {
    assert CallIds(calls[..n + 1]) == CallIds(calls[..n]) + [calls[n].id];
  }

  lemma ResultIdsNext(results: seq<Message>, m: Message)
    requires m.ToolResult?
    ensures ResultIds(results + [m]) == ResultIds(results) + [m.toolCallId]
  {
  }

  lemma AccountedFirst(mode: ToolMode, s: Monitor, e: Event)
    requires s.Talking? && Next(mode, s, e).Tooling?
    ensures Accounted(Next(mode, s, e))
  {
    hide ToolCalls, CallIds, ResultIds;
    var calls := ToolCalls(s.last.value);
    FirstCall(calls);
    assert calls[1..] == calls[|calls| - |calls[1..]|..];
  }

  lemma FirstCall(calls: seq<ToolCall>)
    ensures calls != [] ==> multiset(CallIds(calls[..1])) == multiset{calls[0].id}
    ensures multiset(ResultIds([])) == multiset{}
  {
    if calls != [] {
      assert CallIds(calls[..1]) == [calls[0].id];
    }
    assert ResultIds([]) == [];
  }

  lemma AccountedStart(s: Monitor, id: string)
    requires s.Tooling? && Accounted(s) && s.todo != [] && s.todo[0].id == id
    ensures Accounted(s.(todo := s.todo[1..], running := s.running + multiset{id}))
  {
    hide ToolCalls, CallIds, ResultIds;
    CallsNext(ToolCalls(s.response), |ToolCalls(s.response)| - |s.todo|);
  }

  lemma AccountedResult(s: Monitor, m: Message)
    requires s.Tooling? && Accounted(s) && s.bracket == Open(m)
    ensures Accounted(s.(ended := s.ended + [m], bracket := Closed, due := None, results := s.results + [m]))
  {
    hide ToolCalls, CallIds, ResultIds;
    ResultIdsNext(s.results, m);
  }

  lemma AccountedEnd(s: Monitor, id: string, due: Message)
    requires s.Tooling? && Accounted(s) && s.bracket.Closed? && s.due.None? && id in s.running
    requires due.ToolResult? && due.toolCallId == id
    ensures Accounted(s.(running := s.running - multiset{id}, due := Some(due)))
  {
    hide ToolCalls, CallIds, ResultIds;
    assert s.running - multiset{id} + multiset{id} == s.running;
  }

  lemma AccountedOther(mode: ToolMode, s: Monitor, e: Event)
    requires Accounted(s) && s.Tooling? && !e.ToolStart? && !e.MessageEnd?
    ensures Accounted(Next(mode, s, e))
  {
    hide ToolCalls, CallIds, ResultIds;
    if e.ToolEnd? {
      hide Accounted;
      if Next(mode, s, e).Tooling? {
        AccountedEnd(s, e.id, ToolResult(e.id, e.name, e.result, e.isError));
      } else {
        AccountedBad();
      }
    }
  }

  lemma AccountedNext(mode: ToolMode, s: Monitor, e: Event)
    requires Accounted(s)
    ensures Accounted(Next(mode, s, e))
  {
    if s.Talking? {
      if Next(mode, s, e).Tooling? {
        AccountedFirst(mode, s, e);
      }
    } else if s.Tooling? {
      hide Accounted, ToolCalls;
      if e.ToolStart? {
        if Next(mode, s, e).Tooling? {
          AccountedStart(s, e.id);
        } else {
          AccountedBad();
        }
      } else if e.MessageEnd? {
        if Next(mode, s, e).Tooling? {
          AccountedResult(s, e.message);
        } else {
          AccountedBad();
        }
      } else {
        AccountedOther(mode, s, e);
      }
    }
  }

  lemma AccountedBad()
    ensures Accounted(Bad)
  {
  }

  lemma {:induction false} AlwaysAccounted(mode: ToolMode, trace: seq<Event>)
    ensures Accounted(Run(mode, trace))
  {
    if trace != [] {
      AlwaysAccounted(mode, trace[..|trace| - 1]);
      AccountedNext(mode, Run(mode, trace[..|trace| - 1]), trace[|trace| - 1]);
    }
  }

  /** What a turn_end may report: a failed response reports no results; any other reports
      exactly one tool result for each of its tool calls. */
  ghost predicate AnswersAll(response: AssistantMessage, results: seq<Message>) {
    if Failed(response) then results == []
    else multiset(ResultIds(results)) == multiset(CallIds(ToolCalls(response)))
  }

  /** In every accepted trace, each turn_end of a response that is no error and not aborted
      reports one result per call block of its content; of any other it reports none. */
  lemma TurnEndAnswersAll(mode: ToolMode, trace: seq<Event>, i: nat)
    requires Accepts(mode, trace) && i < |trace| && trace[i].TurnEnd?
    ensures trace[i].response.Assistant? && AnswersAll(trace[i].response, trace[i].toolResults)
    ensures if trace[i].response.stopReason == Error || trace[i].response.stopReason == Aborted
            then trace[i].toolResults == []
            else AnswersBlocks(trace[i].response.content, trace[i].toolResults)
  {
    StepAt(mode, trace, i);
    AlwaysAccounted(mode, trace[..i]);
    NotFailedTooling(mode, trace[..i]);
    TurnEndLegal(mode, Run(mode, trace[..i]), trace[i]);
    if !Failed(trace[i].response) {
      BlocksAnswered(trace[i].response, trace[i].toolResults);
    }
  }

  lemma TurnEndLegal(mode: ToolMode, s: Monitor, e: Event)
    requires Accounted(s) && (s.Tooling? ==> !Failed(s.response))
    requires e.TurnEnd? && Next(mode, s, e) != Bad
    ensures e.response.Assistant? && AnswersAll(e.response, e.toolResults)
    ensures forall r :: r in e.toolResults ==> r.ToolResult?
  {
    var calls := ToolCalls(e.response);
    assert calls[..|calls|] == calls;
    assert ResultIds([]) == [] && CallIds([]) == [];
  }

  /** Every tool call started in a turn is a call block of the response that its turn_end
      carries, and that response is no error and not aborted: a failed response runs no tools. */
  lemma StartedCallsAreBlocks(mode: ToolMode, trace: seq<Event>, j: nat, i: nat)
    requires Accepts(mode, trace) && j < i < |trace| && trace[j].ToolStart? && trace[i].TurnEnd?
    requires forall k :: j < k < i ==> !trace[k].TurnEnd?
    ensures trace[i].response.Assistant?
    ensures trace[i].response.stopReason != Error && trace[i].response.stopReason != Aborted
    ensures exists b :: 0 <= b < |trace[i].response.content|
                        && trace[i].response.content[b] == Call(ToolCall(trace[j].id, trace[j].name, trace[j].args))
  {
    hide ToolCalls, Next;
    StepAt(mode, trace, j);
    AlwaysAccounted(mode, trace[..j]);
    StartedHas(mode, Run(mode, trace[..j]), trace[j]);
    StaysTooling(mode, trace, j + 1, i);
    StepAt(mode, trace, i);
    ToolingEnds(mode, Run(mode, trace[..i]), trace[i]);
    NotFailedTooling(mode, trace[..i]);
    CallIsBlock(trace[i].response, ToolCall(trace[j].id, trace[j].name, trace[j].args));
  }

  lemma StartedHas(mode: ToolMode, s: Monitor, e: Event)
    requires e.ToolStart? && Next(mode, s, e) != Bad && Accounted(s)
    ensures Next(mode, s, e).Tooling? && ToolCall(e.id, e.name, e.args) in ToolCalls(Next(mode, s, e).response)
  {
    hide ToolCalls, CallIds, ResultIds;
  }

  /** Until its turn_end the tool part of a turn keeps its response. */
  lemma {:induction false} StaysTooling(mode: ToolMode, trace: seq<Event>, i: nat, j: nat)
    requires Accepts(mode, trace) && i <= j <= |trace| && Run(mode, trace[..i]).Tooling?
    requires forall k :: i <= k < j ==> !trace[k].TurnEnd?
    ensures Run(mode, trace[..j]).Tooling? && Run(mode, trace[..j]).response == Run(mode, trace[..i]).response
    decreases j
  {
    hide Next;
    if i < j {
      StaysTooling(mode, trace, i, j - 1);
      StepAt(mode, trace, j - 1);
      ToolingKept(mode, Run(mode, trace[..j - 1]), trace[j - 1]);
    }
  }

  lemma ToolingKept(mode: ToolMode, s: Monitor, e: Event)
    requires s.Tooling? && Next(mode, s, e) != Bad && !e.TurnEnd?
    ensures Next(mode, s, e).Tooling? && Next(mode, s, e).response == s.response
  {
  }

  lemma ToolingEnds(mode: ToolMode, s: Monitor, e: Event)
    requires s.Tooling? && Next(mode, s, e) != Bad && e.TurnEnd?
    ensures e.response == s.response
  {
  }

  lemma {:induction false} NotFailedTooling(mode: ToolMode, trace: seq<Event>)
    ensures Run(mode, trace).Tooling? ==> !Failed(Run(mode, trace).response)
  {
    if trace != [] {
      NotFailedTooling(mode, trace[..|trace| - 1]);
    }
  }
}
