/** The event-sourced state of an Agent: the reducer processEvents of
    packages/agent/src/agent.ts, and what its state says about the events it was given. */
module Transcript {
  import opened Basics
  import opened Messages
  import opened Grammar

  datatype AgentView = AgentView(
    messages: seq<Message>,
    streamingMessage: Option<Message>,
    pendingToolCalls: set<string>,
    errorMessage: Option<string>)

  /** The state change of processEvents for one event. An empty error text counts as none. */
  function Reduce(v: AgentView, e: Event): AgentView {
    match e
    case MessageStart(m) => v.(streamingMessage := Some(m))
    case MessageUpdate(m, _) => v.(streamingMessage := Some(m))
    case MessageEnd(m) => v.(streamingMessage := None, messages := v.messages + [m])
    case ToolStart(id, _, _) => v.(pendingToolCalls := v.pendingToolCalls + {id})
    case ToolEnd(id, _, _, _) => v.(pendingToolCalls := v.pendingToolCalls - {id})
    case TurnEnd(m, _) =>
      if m.Assistant? && m.errorMessage.Some? && m.errorMessage.value != "" then v.(errorMessage := m.errorMessage)
      else v
    case AgentEnd(_) => v.(streamingMessage := None)
    case _ => v
  }

  /** The state after a trace. */
  function Fold(v: AgentView, trace: seq<Event>): AgentView {
    if trace == [] then v else Reduce(Fold(v, trace[..|trace| - 1]), trace[|trace| - 1])
  }

  lemma FoldNext(v: AgentView, trace: seq<Event>, e: Event)
    ensures Fold(v, trace + [e]) == Reduce(Fold(v, trace), e)
  {
    assert (trace + [e])[..|trace|] == trace;
  }

  /** The transcript is what was there, then the message_end messages in order. */
  lemma {:induction false} TranscriptIsEnded(v: AgentView, trace: seq<Event>)
    ensures Fold(v, trace).messages == v.messages + Ended(trace)
  {
    if trace != [] {
      TranscriptIsEnded(v, trace[..|trace| - 1]);
    }
  }

  /** Event i ends a turn whose response carries an error text. */
  predicate ShowsError(trace: seq<Event>, i: nat) {
    && i < |trace| && trace[i].TurnEnd? && trace[i].response.Assistant?
    && trace[i].response.errorMessage.Some? && trace[i].response.errorMessage.value != ""
  }

  /** errorMessage is the error text of the latest turn that showed one. */
  lemma {:induction false} ErrorIsLatest(v: AgentView, trace: seq<Event>, i: nat)
    requires ShowsError(trace, i) && forall j :: i < j < |trace| ==> !ShowsError(trace, j)
    ensures Fold(v, trace).errorMessage == trace[i].response.errorMessage
  {
    var n := |trace| - 1;
    if i < n {
      assert forall j :: 0 <= j < n ==> (ShowsError(trace, j) <==> ShowsError(trace[..n], j));
      ErrorIsLatest(v, trace[..n], i);
      assert !ShowsError(trace, n);
    }
  }

  /** If no turn showed one, it is what it was before. */
  lemma {:induction false} NoErrorShown(v: AgentView, trace: seq<Event>)
    requires forall i :: 0 <= i < |trace| ==> !ShowsError(trace, i)
    ensures Fold(v, trace).errorMessage == v.errorMessage
  {
    if trace != [] {
      var n := |trace| - 1;
      assert forall j :: 0 <= j < n ==> (ShowsError(trace, j) <==> ShowsError(trace[..n], j));
      NoErrorShown(v, trace[..n]);
      assert !ShowsError(trace, n);
    }
  }

  /** id was started and its latest start has no later end. */
  ghost predicate Unfinished(trace: seq<Event>, id: string) {
    exists i :: 0 <= i < |trace| && UnfinishedFrom(trace, i, id)
  }

  ghost predicate UnfinishedFrom(trace: seq<Event>, i: nat, id: string)
    requires i < |trace|
  {
    && trace[i].ToolStart? && trace[i].id == id
    && forall j :: i < j < |trace| ==> !(trace[j].ToolEnd? && trace[j].id == id)
  }

  lemma UnfinishedNext(trace: seq<Event>, e: Event, id: string)
    ensures Unfinished(trace + [e], id) <==>
            (e.ToolStart? && e.id == id) || (Unfinished(trace, id) && !(e.ToolEnd? && e.id == id))
  {
    var longer := trace + [e];
    if e.ToolStart? && e.id == id {
      assert UnfinishedFrom(longer, |trace|, id);
    }
    if Unfinished(trace, id) && !(e.ToolEnd? && e.id == id) {
      var i :| 0 <= i < |trace| && UnfinishedFrom(trace, i, id);
      assert UnfinishedFrom(longer, i, id);
    }
    if Unfinished(longer, id) && !(e.ToolStart? && e.id == id) {
      var i :| 0 <= i < |longer| && UnfinishedFrom(longer, i, id);
      assert longer[i] == trace[i];
      assert UnfinishedFrom(trace, i, id) by {
        forall j | i < j < |trace| ensures !(trace[j].ToolEnd? && trace[j].id == id) {
          assert longer[j] == trace[j];
        }
      }
      assert longer[|trace|] == e;
    }
  }

  /** pendingToolCalls holds exactly the ids whose latest start has no later end, for every
      trace, repeated ids included. */
  lemma {:induction false} PendingIsUnfinished(v: AgentView, trace: seq<Event>, id: string)
    requires v.pendingToolCalls == {}
    ensures id in Fold(v, trace).pendingToolCalls <==> Unfinished(trace, id)
  {
    hide Unfinished;
    if trace != [] {
      var init := trace[..|trace| - 1];
      PendingIsUnfinished(v, init, id);
      UnfinishedNext(init, trace[|trace| - 1], id);
      assert trace == init + [trace[|trace| - 1]];
    } else {
      assert !Unfinished(trace, id) by { NothingUnfinished(id); }
    }
  }

  lemma NothingUnfinished(id: string)
    ensures !Unfinished([], id)
  {
  }

  function RunningOf(s: Monitor): multiset<string> {
    if s.Tooling? then s.running else multiset{}
  }

  lemma PendingNext(mode: ToolMode, s: Monitor, v: AgentView, e: Event)
    requires Next(mode, s, e) != Bad
    requires forall id :: id in v.pendingToolCalls ==> id in RunningOf(s)
    requires mode == Sequential ==> |RunningOf(s)| <= 1
    ensures mode == Sequential ==> |RunningOf(Next(mode, s, e))| <= 1
    ensures forall id :: id in Reduce(v, e).pendingToolCalls ==> id in RunningOf(Next(mode, s, e))
  {
    hide ToolCalls;
    RunningNext(mode, s, e);
    hide Next;
  }

  /** What a grammatical event does to the calls that run. */
  lemma RunningNext(mode: ToolMode, s: Monitor, e: Event)
    requires Next(mode, s, e) != Bad
    ensures e.ToolStart? ==> RunningOf(Next(mode, s, e)) == RunningOf(s) + multiset{e.id}
    ensures e.ToolStart? && mode == Sequential ==> RunningOf(s) == multiset{}
    ensures e.ToolEnd? ==> e.id in RunningOf(s) && RunningOf(Next(mode, s, e)) == RunningOf(s) - multiset{e.id}
    ensures !e.ToolStart? && !e.ToolEnd? ==> RunningOf(Next(mode, s, e)) == RunningOf(s)
  {
    hide ToolCalls;
  }

  /** In an accepted trace every pending id belongs to a running call; in sequential mode
      at most one call ever runs. */
  lemma {:induction false} PendingIsRunning(mode: ToolMode, v: AgentView, trace: seq<Event>)
    requires v.pendingToolCalls == {} && Accepts(mode, trace)
    ensures forall id :: id in Fold(v, trace).pendingToolCalls ==> id in RunningOf(Run(mode, trace))
    ensures mode == Sequential ==> |RunningOf(Run(mode, trace))| <= 1
  {
    hide Next, Reduce, RunningOf;
    if trace != [] {
      var n := |trace| - 1;
      StepAt(mode, trace, n);
      assert trace[..n + 1] == trace;
      PendingIsRunning(mode, v, trace[..n]);
      PendingNext(mode, Run(mode, trace[..n]), Fold(v, trace[..n]), trace[n]);
    } else {
      NothingRunning();
    }
  }

  lemma NothingRunning()
    ensures RunningOf(Fresh) == multiset{}
  {
  }

  /** At every turn_end no call is pending; in sequential mode never more than one is. */
  lemma PendingEmptyAtTurnEnd(mode: ToolMode, v: AgentView, trace: seq<Event>, i: nat)
    requires v.pendingToolCalls == {} && Accepts(mode, trace) && i < |trace|
    ensures trace[i].TurnEnd? || trace[i].AgentEnd? ==> Fold(v, trace[..i + 1]).pendingToolCalls == {}
    ensures mode == Sequential ==> |Fold(v, trace[..i + 1]).pendingToolCalls| <= 1
  {
    hide Next;
    StepAt(mode, trace, i);
    PendingIsRunning(mode, v, trace[..i + 1]);
    NextLegal(mode, Run(mode, trace[..i]), trace[i]);
    var pending, running := Fold(v, trace[..i + 1]).pendingToolCalls, RunningOf(Run(mode, trace[..i + 1]));
    DistinctIds(pending, running);
  }

  lemma DistinctIds(ids: set<string>, running: multiset<string>)
    requires forall id :: id in ids ==> id in running
    ensures |ids| <= |running|
  {
    if ids != {} {
      var id :| id in ids;
      DistinctIds(ids - {id}, running - multiset{id});
      assert |running| == |running - multiset{id}| + 1;
      assert |ids| == |ids - {id}| + 1;
    }
  }

  lemma StreamingNext(mode: ToolMode, s: Monitor, v: AgentView, e: Event)
    requires Next(mode, s, e) != Bad
    requires v.streamingMessage == if IsOpen(s) then Some(s.bracket.message) else None
    ensures Reduce(v, e).streamingMessage ==
            if IsOpen(Next(mode, s, e)) then Some(Next(mode, s, e).bracket.message) else None
  {
    hide ToolCalls;
  }

  /** streamingMessage is the message whose bracket is open, with its latest content. */
  lemma {:induction false} StreamingIsOpenBracket(mode: ToolMode, v: AgentView, trace: seq<Event>)
    requires v.streamingMessage == None && Accepts(mode, trace)
    ensures Fold(v, trace).streamingMessage ==
            if IsOpen(Run(mode, trace)) then Some(Run(mode, trace).bracket.message) else None
  {
    hide Next, Reduce;
    if trace != [] {
      var n := |trace| - 1;
      StepAt(mode, trace, n);
      assert trace[..n + 1] == trace;
      StreamingIsOpenBracket(mode, v, trace[..n]);
      StreamingNext(mode, Run(mode, trace[..n]), Fold(v, trace[..n]), trace[n]);
    }
  }

  /** The state object an Agent owns. */
  class AgentState {
    var messages: seq<Message>
    var streamingMessage: Option<Message>
    var pendingToolCalls: set<string>
    var errorMessage: Option<string>

    constructor (messages: seq<Message>)
      ensures View() == AgentView(messages, None, {}, None)
    {
      this.messages := messages;
      streamingMessage, pendingToolCalls, errorMessage := None, {}, None;
    }

    function View(): AgentView
      reads this
    {
      AgentView(messages, streamingMessage, pendingToolCalls, errorMessage)
    }

    /** processEvents: reduce the state for one event. */
    method ProcessEvent(e: Event)
      modifies this
      ensures View() == Reduce(old(View()), e)
    {
      match e {
        case MessageStart(m) => streamingMessage := Some(m);
        case MessageUpdate(m, _) => streamingMessage := Some(m);
        case MessageEnd(m) =>
          streamingMessage := None;
          messages := messages + [m];
        case ToolStart(id, _, _) => pendingToolCalls := pendingToolCalls + {id};
        case ToolEnd(id, _, _, _) => pendingToolCalls := pendingToolCalls - {id};
        case TurnEnd(m, _) =>
          if m.Assistant? && m.errorMessage.Some? && m.errorMessage.value != "" {
            errorMessage := m.errorMessage;
          }
        case AgentEnd(_) => streamingMessage := None;
        case _ =>
      }
    }
  }
}
