/** The run lifecycle of an Agent (packages/agent/src/agent.ts): the synchronous segments of
    prompt, continue, runWithLifecycle, handleRunFailure and finishRun, and what every
    interleaving of calls keeps. */
module Lifecycle {
  import opened Basics
  import opened Messages
  import opened Grammar
  import opened Transcript

  /** The state of an agent that its runs touch. */
  datatype RunState = RunState(view: AgentView, isStreaming: bool, active: bool)

  /** runWithLifecycle up to its executor. */
  function Begin(s: RunState): RunState {
    RunState(s.view.(streamingMessage := None, errorMessage := None), true, true)
  }

  function FailureMessage(error: string, aborted: bool): AssistantMessage {
    Assistant([Text("")], if aborted then Aborted else Error, Some(error))
  }

  /** handleRunFailure: a failure message joins the transcript, then agent_end is processed. */
  function Fail(s: RunState, error: string, aborted: bool): RunState {
    var m := FailureMessage(error, aborted);
    s.(view := Reduce(s.view.(messages := s.view.messages + [m], errorMessage := m.errorMessage), AgentEnd([m])))
  }

  /** finishRun. */
  function Finish(s: RunState): RunState {
    RunState(s.view.(streamingMessage := None, pendingToolCalls := {}), false, false)
  }

  predicate EndsInResponse(v: AgentView) {
    v.messages != [] && v.messages[|v.messages| - 1].Assistant?
  }

  /** No run is active and nothing of one is left over. */
  predicate Idle(s: RunState) {
    !s.active && !s.isStreaming && s.view.streamingMessage == None && s.view.pendingToolCalls == {}
  }

  // ---------------------------------------------------------------- interleaved calls

  /** A run in progress: the transcript it found, and what it has emitted. */
  datatype RunSoFar = RunSoFar(before: seq<Message>, trace: seq<Event>)

  /** A call of prompt or continue: not yet made, refused, its run in progress, its run
      failed with agent_end being processed, or settled with or without a failure. */
  datatype Call =
    | Uncalled
    | Refused
    | Running(run: RunSoFar)
    | Failing(run: RunSoFar, failure: Message)
    | Settled(run: RunSoFar, failed: Option<Message>)

  /** What an observer sees, in order: an event of a call's run, or the failure message put
      into the transcript when it has thrown. */
  datatype Happening = Happening(call: nat, what: Observed)

  datatype Observed = Emitted(event: Event) | FailedWith(message: Message)

  datatype System = System(run: RunState, calls: seq<Call>, history: seq<Happening>)

  /** One synchronous segment. Between any two, segments of other calls may run. */
  datatype Move =
    | Enter(k: nat, refuse: bool)       // entering prompt or continue; continue may refuse on its own
    | Deliver(k: nat, event: Event)     // the run emits an event
    | Return(k: nat)                    // the run's loop returns
    | Throw(k: nat, error: string, aborted: bool)  // it throws, at any point, agent_end included
    | AfterFailure(k: nat)              // the failure's agent_end listeners returned or threw

  /** When a segment can run. A loop that returns has emitted a complete trace, as
      AgentLoops.AgentLoop.Ran says; before that its events are arbitrary. */
  predicate Enabled(mode: ToolMode, s: System, m: Move) {
    && m.k < |s.calls|
    && match m
       case Enter(k, _) => s.calls[k].Uncalled?
       case Deliver(k, _) => s.calls[k].Running?
       case Return(k) => s.calls[k].Running? && Complete(mode, s.calls[k].run.trace)
       case Throw(k, _, _) => s.calls[k].Running?
       case AfterFailure(k) => s.calls[k].Failing?
  }

  function Apply(mode: ToolMode, s: System, m: Move): System
    requires Enabled(mode, s, m)
  {
    match m
    case Enter(k, refuse) =>
      if s.run.active || refuse then s.(calls := s.calls[k := Refused])
      else s.(run := Begin(s.run), calls := s.calls[k := Running(RunSoFar(s.run.view.messages, []))])
    case Deliver(k, e) =>
      System(s.run.(view := Reduce(s.run.view, e)),
             s.calls[k := Running(s.calls[k].run.(trace := s.calls[k].run.trace + [e]))],
             s.history + [Happening(k, Emitted(e))])
    case Return(k) => s.(run := Finish(s.run), calls := s.calls[k := Settled(s.calls[k].run, None)])
    case Throw(k, error, aborted) =>
      var failure := FailureMessage(error, aborted);
      System(Fail(s.run, error, aborted), s.calls[k := Failing(s.calls[k].run, failure)],
             s.history + [Happening(k, FailedWith(failure))])
    case AfterFailure(k) =>
      s.(run := Finish(s.run), calls := s.calls[k := Settled(s.calls[k].run, Some(s.calls[k].failure))])
  }

  /** The system after a schedule of moves; a move that is not enabled is passed over. */
  function Execute(mode: ToolMode, messages: seq<Message>, calls: nat, moves: seq<Move>): (s: System)
    ensures |s.calls| == calls
  {
    if moves == [] then
      System(RunState(AgentView(messages, None, {}, None), false, false), seq(calls, i => Uncalled), [])
    else
      var s := Execute(mode, messages, calls, moves[..|moves| - 1]);
      var m := moves[|moves| - 1];
      if Enabled(mode, s, m) then Apply(mode, s, m) else s
  }

  predicate InProgress(c: Call) {
    c.Running? || c.Failing?
  }

  // ---------------------------------------------------------------- what a history shows

  /** The messages a history adds to the transcript. */
  function MessagesIn(history: seq<Happening>): seq<Message> {
    if history == [] then []
    else
      var last := history[|history| - 1].what;
      MessagesIn(history[..|history| - 1]) +
      match last
      case Emitted(e) => if e.MessageEnd? then [e.message] else []
      case FailedWith(m) => [m]
  }

  /** The events of one call. */
  function TraceOf(history: seq<Happening>, k: nat): seq<Event> {
    if history == [] then []
    else
      var last := history[|history| - 1];
      TraceOf(history[..|history| - 1], k) +
      if last.call == k && last.what.Emitted? then [last.what.event] else []
  }

  /** What happens for one call is one unbroken stretch of the history. */
  ghost predicate Unbroken(history: seq<Happening>) {
    forall i, j, l :: 0 <= i < j < l < |history| && history[i].call == history[l].call ==>
      history[j].call == history[i].call
  }

  /** Once call k shows in the history, nothing else does. */
  ghost predicate Latest(history: seq<Happening>, k: nat) {
    forall i, j :: 0 <= i < j < |history| && history[i].call == k ==> history[j].call == k
  }

  ghost predicate Silent(history: seq<Happening>, k: nat) {
    forall i :: 0 <= i < |history| ==> history[i].call != k
  }

  lemma HistoryNext(history: seq<Happening>, h: Happening)
    ensures MessagesIn(history + [h]) == MessagesIn(history) +
            match h.what
            case Emitted(e) => if e.MessageEnd? then [e.message] else []
            case FailedWith(m) => [m]
    ensures forall k: nat :: TraceOf(history + [h], k) == TraceOf(history, k) +
              if h.call == k && h.what.Emitted? then [h.what.event] else []
    ensures Unbroken(history) && Latest(history, h.call) ==>
              Unbroken(history + [h]) && Latest(history + [h], h.call)
    ensures forall k: nat :: k != h.call && Silent(history, k) ==> Silent(history + [h], k)
  {
    assert (history + [h])[..|history|] == history;
  }

  // ---------------------------------------------------------------- the invariant

  /** The runtime flags, and the end of the transcript between runs. */
  ghost predicate Safe(s: System) {
    && (forall i, j :: 0 <= i < j < |s.calls| ==> !(InProgress(s.calls[i]) && InProgress(s.calls[j])))
    && (s.run.active <==> exists i :: 0 <= i < |s.calls| && InProgress(s.calls[i]))
    && (s.run.active ==> s.run.isStreaming)
    && (!s.run.active ==> Idle(s.run))
    && (forall i :: 0 <= i < |s.calls| && s.calls[i].Failing? ==> EndsInResponse(s.run.view))
    && (!s.run.active && (exists i :: 0 <= i < |s.calls| && s.calls[i].Settled?) ==> EndsInResponse(s.run.view))
  }

  /** What a run has added to the transcript so far. */
  function AddedBy(c: Call): seq<Message>
    requires c.Running? || c.Failing? || c.Settled?
  {
    Ended(c.run.trace) +
    match c
    case Running(_) => []
    case Failing(_, failure) => [failure]
    case Settled(_, failed) => if failed.Some? then [failed.value] else []
  }

  predicate Started(c: Call) {
    c.Running? || c.Failing? || c.Settled?
  }

  /** The messages of every run stand in the transcript as one block, right after what the
      run found there; those of a run in progress are its end. */
  ghost predicate Blocks(s: System) {
    && (forall i :: 0 <= i < |s.calls| && Started(s.calls[i]) ==>
          s.calls[i].run.before + AddedBy(s.calls[i]) <= s.run.view.messages)
    && (forall i :: 0 <= i < |s.calls| && InProgress(s.calls[i]) ==>
          s.run.view.messages == s.calls[i].run.before + AddedBy(s.calls[i]))
  }

  /** Only complete traces return. */
  ghost predicate Returned(mode: ToolMode, s: System) {
    forall i :: 0 <= i < |s.calls| && s.calls[i].Settled? && s.calls[i].failed.None? ==>
      Complete(mode, s.calls[i].run.trace)
  }

  /** History and calls agree. */
  ghost predicate Recorded(messages: seq<Message>, s: System) {
    && s.run.view.messages == messages + MessagesIn(s.history)
    && Unbroken(s.history)
    && (forall i: nat :: i < |s.calls| && InProgress(s.calls[i]) ==> Latest(s.history, i))
    && (forall i: nat :: i < |s.calls| && !Started(s.calls[i]) ==> Silent(s.history, i))
    && (forall i: nat :: i < |s.calls| && Started(s.calls[i]) ==> TraceOf(s.history, i) == s.calls[i].run.trace)
  }

  ghost predicate Inv(mode: ToolMode, messages: seq<Message>, s: System) {
    Safe(s) && Blocks(s) && Returned(mode, s) && Recorded(messages, s)
  }

  /** A loop that returns leaves its last response at the end of the transcript. */
  lemma CompleteEndsInResponse(mode: ToolMode, before: seq<Message>, trace: seq<Event>, v: AgentView)
    requires Complete(mode, trace) && v.messages == before + Ended(trace)
    ensures EndsInResponse(v)
  {
    hide Complete, Ended;
    CompleteShape(mode, trace);
  }

  lemma FailEndsInResponse(s: RunState, error: string, aborted: bool)
    ensures EndsInResponse(Fail(s, error, aborted).view)
    ensures Fail(s, error, aborted).view.messages == s.view.messages + [FailureMessage(error, aborted)]
    ensures Fail(s, error, aborted).active == s.active && Fail(s, error, aborted).isStreaming == s.isStreaming
  {
  }

  lemma DeliverAdds(v: AgentView, e: Event)
    ensures Reduce(v, e).messages == v.messages + if e.MessageEnd? then [e.message] else []
  {
  }

  lemma EndedNext(trace: seq<Event>, e: Event)
    ensures Ended(trace + [e]) == Ended(trace) + if e.MessageEnd? then [e.message] else []
  {
    assert (trace + [e])[..|trace|] == trace;
  }

  /** Every synchronous segment keeps the flags right and the transcript ending in a
      response between runs: after a return because the trace is complete, after a throw
      because of the failure message. */
  lemma ApplySafe(mode: ToolMode, s: System, m: Move)
    requires Safe(s) && Blocks(s) && Enabled(mode, s, m)
    ensures Safe(Apply(mode, s, m))
  {
    hide Reduce, Complete, Ended;
    var t := Apply(mode, s, m);
    assert forall i :: 0 <= i < |s.calls| && i != m.k ==> t.calls[i] == s.calls[i];
    assert !t.calls[m.k].Uncalled?;
    if m.Throw? {
      FailEndsInResponse(s.run, m.error, m.aborted);
    }
    if m.Return? {
      var run := s.calls[m.k].run;
      assert run.before + (Ended(run.trace) + []) == run.before + Ended(run.trace);
      CompleteEndsInResponse(mode, run.before, run.trace, s.run.view);
    }
  }

  lemma ApplyBlocks(mode: ToolMode, s: System, m: Move)
    requires Safe(s) && Blocks(s) && Enabled(mode, s, m)
    ensures Blocks(Apply(mode, s, m))
  {
    hide Reduce, Complete, Ended;
    var t := Apply(mode, s, m);
    assert forall i :: 0 <= i < |s.calls| && i != m.k ==> t.calls[i] == s.calls[i];
    match m {
      case Enter(_, _) => NothingAdded(s.run.view.messages);
      case Deliver(k, e) =>
        DeliverAdds(s.run.view, e);
        EndedNext(s.calls[k].run.trace, e);
        BlockGrows(s.calls[k].run.before, Ended(s.calls[k].run.trace), if e.MessageEnd? then [e.message] else []);
      case Throw(k, error, aborted) =>
        FailEndsInResponse(s.run, error, aborted);
        BlockGrows(s.calls[k].run.before, Ended(s.calls[k].run.trace), [FailureMessage(error, aborted)]);
      case Return(_) =>
      case AfterFailure(_) =>
    }
  }

  lemma NothingAdded(before: seq<Message>)
    ensures before + (Ended([]) + []) == before
  {
  }

  lemma BlockGrows(before: seq<Message>, ended: seq<Message>, more: seq<Message>)
    ensures before + (ended + []) + more == before + (ended + more) == before + (ended + more + [])
  {
  }

  lemma ApplyRecorded(mode: ToolMode, messages: seq<Message>, s: System, m: Move)
    requires Safe(s) && Recorded(messages, s) && Enabled(mode, s, m)
    ensures Recorded(messages, Apply(mode, s, m))
  {
    hide Reduce, Complete, MessagesIn, TraceOf, Unbroken, Latest, Silent, Safe;
    var t := Apply(mode, s, m);
    assert forall i :: 0 <= i < |s.calls| && i != m.k ==> t.calls[i] == s.calls[i];
    match m {
      case Enter(k, _) => SilentIsLatest(s.history, k);
      case Deliver(k, e) =>
        OnlyOne(s, k);
        DeliverAdds(s.run.view, e);
        HistoryNext(s.history, Happening(k, Emitted(e)));
      case Throw(k, error, aborted) =>
        OnlyOne(s, k);
        FailEndsInResponse(s.run, error, aborted);
        HistoryNext(s.history, Happening(k, FailedWith(FailureMessage(error, aborted))));
      case Return(_) =>
      case AfterFailure(_) =>
    }
  }

  lemma OnlyOne(s: System, k: nat)
    requires Safe(s) && k < |s.calls| && InProgress(s.calls[k])
    ensures forall i :: 0 <= i < |s.calls| && i != k ==> !InProgress(s.calls[i])
  {
  }

  lemma SilentIsLatest(history: seq<Happening>, k: nat)
    ensures Silent(history, k) ==> Latest(history, k) && TraceOf(history, k) == []
  {
    if history != [] && Silent(history, k) {
      SilentIsLatest(history[..|history| - 1], k);
    }
  }

  lemma {:induction false} ExecuteInv(mode: ToolMode, messages: seq<Message>, calls: nat, moves: seq<Move>)
    ensures Inv(mode, messages, Execute(mode, messages, calls, moves))
  {
    hide Apply, Enabled, Safe, Blocks, Returned, Recorded;
    if moves == [] {
      InitiallyInv(mode, messages, calls);
    } else {
      var init, m := moves[..|moves| - 1], moves[|moves| - 1];
      ExecuteInv(mode, messages, calls, init);
      var s := Execute(mode, messages, calls, init);
      if Enabled(mode, s, m) {
        ApplySafe(mode, s, m);
        ApplyBlocks(mode, s, m);
        ApplyRecorded(mode, messages, s, m);
        ApplyReturned(mode, s, m);
      }
    }
  }

  lemma InitiallyInv(mode: ToolMode, messages: seq<Message>, calls: nat)
    ensures Inv(mode, messages, Execute(mode, messages, calls, []))
  {
  }

  lemma ApplyReturned(mode: ToolMode, s: System, m: Move)
    requires Returned(mode, s) && Enabled(mode, s, m)
    ensures Returned(mode, Apply(mode, s, m))
  {
    hide Complete, Reduce;
  }

  // ---------------------------------------------------------------- theorems

  /** Whatever the interleaving of prompt and continue calls, events and throws: no two runs
      are ever in progress; whenever none is, the agent is idle with its flags cleared and,
      once a run has settled, its transcript ends in an assistant message. */
  lemma LifecycleSafety(mode: ToolMode, messages: seq<Message>, calls: nat, moves: seq<Move>)
    ensures var s := Execute(mode, messages, calls, moves);
            && (forall i, j :: 0 <= i < j < calls ==> !(InProgress(s.calls[i]) && InProgress(s.calls[j])))
            && ((forall i :: 0 <= i < calls ==> !InProgress(s.calls[i])) ==>
                  && Idle(s.run)
                  && ((exists i :: 0 <= i < calls && s.calls[i].Settled?) ==> EndsInResponse(s.run.view)))
  {
    hide Blocks, Returned, Recorded, Execute, EndsInResponse, Idle;
    ExecuteInv(mode, messages, calls, moves);
  }

  /** Runs do not mix: what an observer sees of one call is one unbroken stretch, and nothing
      of a refused call; the transcript is the initial one followed by what was observed,
      the messages of each run forming one block; and a run that settled without a failure
      showed a complete trace. */
  lemma RunsDoNotMix(mode: ToolMode, messages: seq<Message>, calls: nat, moves: seq<Move>)
    ensures var s := Execute(mode, messages, calls, moves);
            && Unbroken(s.history)
            && s.run.view.messages == messages + MessagesIn(s.history)
            && forall k: nat :: k < calls ==>
                 if Started(s.calls[k]) then
                   && s.calls[k].run.trace == TraceOf(s.history, k)
                   && s.calls[k].run.before + AddedBy(s.calls[k]) <= s.run.view.messages
                   && (s.calls[k].Settled? && s.calls[k].failed.None? ==> Complete(mode, TraceOf(s.history, k)))
                 else Silent(s.history, k)
  {
    hide Safe, Execute, Complete, Ended, MessagesIn, TraceOf, Unbroken, Latest, Silent;
    ExecuteInv(mode, messages, calls, moves);
  }

  lemma EnabledInRange(mode: ToolMode, s: System, m: Move)
    requires Enabled(mode, s, m)
    ensures m.k < |s.calls|
  {
  }

  lemma RefusedStays(mode: ToolMode, s: System, m: Move, k: nat)
    requires Enabled(mode, s, m) && k < |s.calls|
    ensures s.calls[k] == Refused ==> Apply(mode, s, m).calls[k] == Refused
    ensures m.Enter? && m.k == k && s.run.active ==> Apply(mode, s, m).calls[k] == Refused
  {
    hide Reduce, Complete;
  }

  /** A call made while a run is active is refused for good: it never shows. */
  lemma {:induction false} RefusedForGood(mode: ToolMode, messages: seq<Message>, calls: nat, moves: seq<Move>,
                                          i: nat, k: nat)
    requires i < |moves| && moves[i].Enter? && moves[i].k == k
    requires Enabled(mode, Execute(mode, messages, calls, moves[..i]), moves[i])
    requires Execute(mode, messages, calls, moves[..i]).run.active
    ensures k < calls && Execute(mode, messages, calls, moves).calls[k] == Refused
    ensures Silent(Execute(mode, messages, calls, moves).history, k)
    decreases |moves|
  {
    hide Silent, Apply, Enabled, Safe, Blocks, Returned;
    var init, m := moves[..|moves| - 1], moves[|moves| - 1];
    var s := Execute(mode, messages, calls, init);
    if i < |moves| - 1 {
      assert init[..i] == moves[..i];
      RefusedForGood(mode, messages, calls, init, i, k);
    } else {
      assert init == moves[..i];
      EnabledInRange(mode, s, m);
    }
    if Enabled(mode, s, m) {
      RefusedStays(mode, s, m, k);
    }
    ExecuteInv(mode, messages, calls, moves);
  }
}
