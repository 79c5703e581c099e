/** Messages and events of the agent loop: packages/agent/src/types.ts and
    packages/ai/src/types.ts. Payloads that do not steer control flow are plain strings. */
module Messages {
  import opened Basics

  /** What an awaited call gave back: a value, or a thrown error with its message. */
  datatype Attempt<+T> = Returned(value: T) | Threw(message: string)

  datatype ToolCall = ToolCall(id: string, name: string, arguments: string)
  datatype Block = Text(text: string) | Thinking(thinking: string) | Call(call: ToolCall)

  datatype ToolOutput = ToolOutput(content: string, details: string)

  datatype Message =
    | User(text: string)
    | Assistant(content: seq<Block>, stopReason: StopReason, errorMessage: Option<string>)
    | ToolResult(toolCallId: string, toolName: string, output: ToolOutput, isError: bool)
    | Custom(role: string, body: string)

  type AssistantMessage = m: Message | m.Assistant? witness Assistant([], Stop, None)

  /** The tool calls of a response, in source order. */
  function ToolCalls(m: AssistantMessage): seq<ToolCall> {
    CallsIn(m.content)
  }

  function CallsIn(content: seq<Block>): seq<ToolCall> {
    if content == [] then []
    else
      var last := content[|content| - 1];
      CallsIn(content[..|content| - 1]) + if last.Call? then [last.call] else []
  }

  predicate Failed(m: AssistantMessage) {
    m.stopReason == Error || m.stopReason == Aborted
  }

  /** calls are the call blocks of content, in order: they stand at the positions, which ascend,
      and every call block stands at one of them. */
  ghost predicate StandAt(content: seq<Block>, calls: seq<ToolCall>, positions: seq<nat>) {
    && |positions| == |calls|
    && (forall k :: 0 <= k < |positions| ==> positions[k] < |content| && content[positions[k]] == Call(calls[k]))
    && (forall j, k :: 0 <= j < k < |positions| ==> positions[j] < positions[k])
    && (forall i {:trigger i in positions} :: 0 <= i < |content| && content[i].Call? ==> i in positions)
  }

  /** The tool calls of a response are its call blocks. */
  lemma {:induction false} CallsAreBlocks(content: seq<Block>) returns (positions: seq<nat>)
    ensures StandAt(content, CallsIn(content), positions)
  {
    positions := [];
    if content != [] {
      hide StandAt;
      var n := |content| - 1;
      positions := CallsAreBlocks(content[..n]);
      StandNext(content[..n], CallsIn(content[..n]), positions, content[n]);
      assert content[..n] + [content[n]] == content;
      if content[n].Call? {
        positions := positions + [n];
      } else {
        assert CallsIn(content) == CallsIn(content[..n]);
      }
    }
  }

  lemma StandNext(content: seq<Block>, calls: seq<ToolCall>, positions: seq<nat>, b: Block)
    requires StandAt(content, calls, positions)
    ensures if b.Call? then StandAt(content + [b], calls + [b.call], positions + [|content|])
            else StandAt(content + [b], calls, positions)
  {
    var longer, n := content + [b], |content|;
    assert longer[n] == b && forall i :: 0 <= i < n ==> longer[i] == content[i];
    var after := if b.Call? then positions + [n] else positions;
    forall i | 0 <= i < |longer| && longer[i].Call? ensures i in after {
      if i < n {
        assert i in positions;
      } else {
        assert after[|positions|] == n;
      }
    }
  }

  lemma CallIsBlock(m: AssistantMessage, call: ToolCall)
    requires call in ToolCalls(m)
    ensures exists b :: 0 <= b < |m.content| && m.content[b] == Call(call)
  {
    var positions := CallsAreBlocks(m.content);
    var k :| 0 <= k < |ToolCalls(m)| && ToolCalls(m)[k] == call;
    assert m.content[positions[k]] == Call(call);
  }

  /** The positions of the content's call blocks, and of those with a given id. */
  ghost function CallBlocks(content: seq<Block>): set<nat> {
    set i: nat | i < |content| && content[i].Call?
  }

  ghost function BlocksOf(content: seq<Block>, id: string): set<nat> {
    set i: nat | i < |content| && content[i].Call? && content[i].call.id == id
  }

  /** The positions of the tool results that answer an id. */
  ghost function AnswersTo(results: seq<Message>, id: string): set<nat> {
    set k: nat | k < |results| && results[k].ToolResult? && results[k].toolCallId == id
  }

  lemma {:induction false} CallsCounted(content: seq<Block>, id: string)
    ensures |CallsIn(content)| == |CallBlocks(content)|
    ensures multiset(CallIds(CallsIn(content)))[id] == |BlocksOf(content, id)|
  {
    if content == [] {
      assert CallIds(CallsIn(content)) == [];
    } else {
      var n := |content| - 1;
      CallsCounted(content[..n], id);
      BlocksNext(content, id);
      hide CallBlocks, BlocksOf, CallIds;
      var calls := CallsIn(content[..n]);
      if content[n].Call? {
        IdsNext(calls, content[n].call);
      } else {
        assert CallsIn(content) == calls;
      }
    }
  }

  lemma IdsNext(calls: seq<ToolCall>, call: ToolCall)
    ensures CallIds(calls + [call]) == CallIds(calls) + [call.id]
  {
  }

  lemma BlocksNext(content: seq<Block>, id: string)
    requires content != []
    ensures var n := |content| - 1;
            && CallBlocks(content) == CallBlocks(content[..n]) + (if content[n].Call? then {n} else {})
            && n !in CallBlocks(content[..n])
            && BlocksOf(content, id) ==
               BlocksOf(content[..n], id) + (if content[n].Call? && content[n].call.id == id then {n} else {})
            && n !in BlocksOf(content[..n], id)
  {
  }

  lemma {:induction false} AnswersCounted(results: seq<Message>, id: string)
    requires forall r :: r in results ==> r.ToolResult?
    ensures multiset(ResultIds(results))[id] == |AnswersTo(results, id)|
  {
    if results == [] {
      assert ResultIds(results) == [];
    } else {
      var n := |results| - 1;
      AnswersCounted(results[..n], id);
      AnsweredNext(results, id);
      hide AnswersTo;
      assert ResultIds(results) == ResultIds(results[..n]) + [results[n].toolCallId];
    }
  }

  lemma AnsweredNext(results: seq<Message>, id: string)
    requires results != []
    ensures var n := |results| - 1;
            && AnswersTo(results, id) ==
               AnswersTo(results[..n], id) +
               (if results[n].ToolResult? && results[n].toolCallId == id then {n} else {})
            && n !in AnswersTo(results[..n], id)
  {
  }

  /** Every call block of the content is answered: there is one tool result per call block, and
      one of each id per call block of that id. */
  ghost predicate AnswersBlocks(content: seq<Block>, results: seq<Message>) {
    && (forall r :: r in results ==> r.ToolResult?)
    && |results| == |CallBlocks(content)|
    && (forall id :: |AnswersTo(results, id)| == |BlocksOf(content, id)|)
    && (forall i :: 0 <= i < |content| && content[i].Call? ==>
          exists k :: 0 <= k < |results| && results[k].ToolResult? && results[k].toolCallId == content[i].call.id)
  }

  lemma BlocksAnswered(m: AssistantMessage, results: seq<Message>)
    requires multiset(ResultIds(results)) == multiset(CallIds(ToolCalls(m)))
    requires forall r :: r in results ==> r.ToolResult?
    ensures AnswersBlocks(m.content, results)
  {
    hide CallsIn, CallIds, ResultIds;
    forall id ensures |AnswersTo(results, id)| == |BlocksOf(m.content, id)| {
      CallsCounted(m.content, id);
      AnswersCounted(results, id);
    }
    forall i | 0 <= i < |m.content| && m.content[i].Call?
      ensures exists k :: 0 <= k < |results| && results[k].ToolResult? && results[k].toolCallId == m.content[i].call.id
    {
      assert i in BlocksOf(m.content, m.content[i].call.id);
      assert |AnswersTo(results, m.content[i].call.id)| > 0;
      var k :| k in AnswersTo(results, m.content[i].call.id);
    }
    CallsCounted(m.content, "");
    SameCount(ToolCalls(m), results);
  }

  lemma SameCount(calls: seq<ToolCall>, results: seq<Message>)
    requires multiset(ResultIds(results)) == multiset(CallIds(calls))
    ensures |results| == |calls|
  {
    assert |multiset(ResultIds(results))| == |results| && |multiset(CallIds(calls))| == |calls|;
  }

  ghost predicate HasCallBlock(content: seq<Block>) {
    exists b :: b in content && b.Call?
  }

  lemma NoCallBlocks(m: AssistantMessage)
    ensures ToolCalls(m) == [] <==> forall b :: b in m.content ==> !b.Call?
    ensures ToolCalls(m) != [] <==> HasCallBlock(m.content)
  {
    var positions := CallsAreBlocks(m.content);
    if ToolCalls(m) != [] {
      assert m.content[positions[0]] in m.content;
    } else if i :| 0 <= i < |m.content| && m.content[i].Call? {
      assert i in positions;
    }
  }

  function CallIds(calls: seq<ToolCall>): seq<string> {
    seq(|calls|, i requires 0 <= i < |calls| => calls[i].id)
  }

  /** The call ids a list of tool results answers. */
  function ResultIds(results: seq<Message>): seq<string> {
    seq(|results|, i requires 0 <= i < |results| => if results[i].ToolResult? then results[i].toolCallId else "")
  }

  datatype StreamEvent =
    | StartEvent(partial: AssistantMessage)
    | DeltaEvent(partial: AssistantMessage)
    | EndEvent

  datatype Event =
    | AgentStart
    | AgentEnd(messages: seq<Message>)
    | TurnStart
    | TurnEnd(response: Message, toolResults: seq<Message>)
    | MessageStart(message: Message)
    | MessageUpdate(message: Message, update: StreamEvent)
    | MessageEnd(message: Message)
    | ToolStart(id: string, name: string, args: string)
    | ToolUpdate(id: string, name: string, args: string, partialResult: ToolOutput)
    | ToolEnd(id: string, name: string, result: ToolOutput, isError: bool)

  /** The messages of the message_end events of a trace, in order. */
  function Ended(trace: seq<Event>): seq<Message> {
    if trace == [] then []
    else
      var last := trace[|trace| - 1];
      Ended(trace[..|trace| - 1]) + if last.MessageEnd? then [last.message] else []
  }

  /** The trace without partial tool updates. */
  function Lasting(trace: seq<Event>): seq<Event> {
    if trace == [] then []
    else
      var last := trace[|trace| - 1];
      Lasting(trace[..|trace| - 1]) + if last.ToolUpdate? then [] else [last]
  }

  lemma LastingNext(trace: seq<Event>, e: Event)
    ensures Lasting(trace + [e]) == Lasting(trace) + if e.ToolUpdate? then [] else [e]
  {
    assert (trace + [e])[..|trace|] == trace;
  }

  lemma {:induction false} EndedConcat(trace: seq<Event>, more: seq<Event>)
    ensures Ended(trace + more) == Ended(trace) + Ended(more)
  {
    if more == [] {
      assert trace + more == trace;
    } else {
      var init := more[..|more| - 1];
      EndedConcat(trace, init);
      assert (trace + more)[..|trace + more| - 1] == trace + init;
    }
  }

  /** The partial tool updates of a trace, in order. */
  function Updates(trace: seq<Event>): seq<Event> {
    if trace == [] then []
    else
      var last := trace[|trace| - 1];
      Updates(trace[..|trace| - 1]) + if last.ToolUpdate? then [last] else []
  }

  lemma UpdatesNext(trace: seq<Event>, e: Event)
    ensures Updates(trace + [e]) == Updates(trace) + if e.ToolUpdate? then [e] else []
  {
    assert (trace + [e])[..|trace|] == trace;
  }

  lemma {:induction false} UpdatesConcat(trace: seq<Event>, more: seq<Event>)
    ensures Updates(trace + more) == Updates(trace) + Updates(more)
  {
    if more == [] {
      assert trace + more == trace;
    } else {
      var init := more[..|more| - 1];
      UpdatesConcat(trace, init);
      assert (trace + more)[..|trace + more| - 1] == trace + init;
    }
  }

  lemma {:induction false} AllUpdates(trace: seq<Event>)
    ensures (forall e :: e in trace ==> e.ToolUpdate?) ==> Updates(trace) == trace
    ensures (forall e :: e in trace ==> !e.ToolUpdate?) ==> Updates(trace) == []
  {
    if trace != [] {
      AllUpdates(trace[..|trace| - 1]);
    }
  }

  datatype ToolMode = Sequential | Parallel
}
