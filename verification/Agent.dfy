/** The stateful wrapper of packages/agent/src/agent.ts. */
module Agents {
  import opened Awaiting
  import opened Basics
  import opened Delivery
  import opened Messages
  import opened Grammar
  import opened Transcript
  import opened PendingQueue
  import opened RunLog
  import opened Streaming
  import opened AgentLoops
  import opened Lifecycle

  datatype CallError = AlreadyProcessing | NoMessages | CannotContinue

  /** How a call of prompt or continue ends: refused at once; completed by its loop; failed
      by a throw, whose error ends up in the transcript (rethrown says the failure's own
      agent_end listeners threw too); or still waiting for the model. */
  datatype Settlement =
    | Rejected(error: CallError)
    | Completed
    | FailedRun(message: string, aborted: bool, rethrown: bool)
    | Waits

  /** What a run that was started did: its prompts, the state it began in, its log, its trace,
      the number of its other outside calls, the batches it delivered, and the transcripts its
      boundaries found. */
  datatype RunRecord = RunRecord(prompts: seq<Message>, view0: AgentView, log: seq<Entry>, trace: seq<Event>,
                                 awaited: nat, batches: seq<Batch>, checkpoints: map<nat, Checkpoint>)

  ghost const NO_RUN := RunRecord([], AgentView([], None, {}, None), [], [], 0, [], map[])

  /** The transcript of a run, read off its log. */
  lemma TranscriptOfRun(messages0: seq<Message>, prompts: seq<Message>, newMessages: seq<Message>, log: seq<Entry>,
                        v: AgentView)
    requires newMessages + [] == prompts + MessagesOf(log)
    requires v.messages == messages0 + newMessages
    requires WellOrdered(messages0 + prompts, log)
    ensures v.messages == messages0 + prompts + MessagesOf(log)
    ensures Finished(log) ==> EndsInResponse(v)
  {
    hide WellOrdered, MessagesOf;
    assert newMessages + [] == newMessages;
    assert messages0 + (prompts + MessagesOf(log)) == messages0 + prompts + MessagesOf(log);
    if Finished(log) {
      FinishedEndsInResponse(messages0 + prompts, log);
    }
  }

  /** Message i of the prompts and of what the log adds: it stands in the transcript if its
      message_end was processed; otherwise it is lost, and belongs to the prompts of a run that
      had not polled yet or to what its latest poll gave. */
  ghost predicate InPlaceOrLost(run: RunRecord, messages0: seq<Message>, transcript: seq<Message>, i: nat)
    requires i < |run.prompts + MessagesOf(run.log)|
  {
    var planned, delivered := run.prompts + MessagesOf(run.log), Ended(run.trace);
    if i < |delivered| then
      |messages0| + i < |transcript| && transcript[|messages0| + i] == planned[i]
    else
      && |Lost(run.prompts, run.log, delivered)| == |planned| - |delivered|
      && Lost(run.prompts, run.log, delivered)[i - |delivered|] == planned[i]
      && (run.log == [] || (IsPoll(Last(run.log)) && |planned| - i <= |Last(run.log).messages|))
  }

  lemma PlaceInFailedRun(run: RunRecord, messages0: seq<Message>, failure: Message, i: nat)
    requires CutShort(run.prompts, run.log, Ended(run.trace))
    requires i < |run.prompts + MessagesOf(run.log)|
    ensures InPlaceOrLost(run, messages0, messages0 + Ended(run.trace) + [failure], i)
  {
    hide MessagesOf, Ended, CutShort;
    LostIff(run.prompts, run.log, Ended(run.trace), i);
  }

  lemma NothingLostMeans(run: RunRecord)
    requires CutShort(run.prompts, run.log, Ended(run.trace))
    ensures Lost(run.prompts, run.log, Ended(run.trace)) == [] <==>
            run.prompts + MessagesOf(run.log) <= Ended(run.trace)
  {
    hide MessagesOf;
    CutShortOrThrough(run.prompts, run.log, Ended(run.trace));
  }

  lemma LatestError(trace: seq<Event>, k: nat) returns (i: nat)
    requires ShowsError(trace, k)
    ensures ShowsError(trace, i) && forall j :: i < j < |trace| ==> !ShowsError(trace, j)
    decreases |trace| - k
  {
    i := k;
    if j :| k < j < |trace| && ShowsError(trace, j) {
      i := LatestError(trace, j);
    }
  }

  lemma SameBack(front: seq<Message>, a: seq<Message>, b: seq<Message>)
    requires front + a == front + b
    ensures a == b
  {
    assert (front + a)[|front|..] == a && (front + b)[|front|..] == b;
  }

  /** The transcript ends in the failure of a run: an assistant message without text, marked as
      aborted or as an error, which carries the error, as the state does. */
  predicate ShowsFailure(v: AgentView, error: string, aborted: bool) {
    && v.messages != []
    && v.messages[|v.messages| - 1] == Assistant([Text("")], if aborted then Aborted else Error, Some(error))
    && v.errorMessage == Some(error)
  }

  class Agent {
    const state: AgentState
    const steeringQueue: PendingMessageQueue
    const followUpQueue: PendingMessageQueue
    var toolExecution: ToolMode
    var activeRun: bool
    var isStreaming: bool

    function Snapshot(): RunState
      reads this`activeRun, this`isStreaming, state
    {
      RunState(state.View(), isStreaming, activeRun)
    }

    ghost predicate Valid()
      reads this`activeRun, this`isStreaming, state, steeringQueue, followUpQueue
    {
      && steeringQueue != followUpQueue && steeringQueue.Valid() && followUpQueue.Valid()
      && (!activeRun ==> Idle(Snapshot()))
    }

    constructor (messages: seq<Message>, steeringMode: QueueMode := OneAtATime, followUpMode: QueueMode := OneAtATime,
                 toolExecution: ToolMode := Parallel)
      ensures Valid() && !activeRun && state.messages == messages && this.toolExecution == toolExecution
      ensures fresh(state) && fresh(steeringQueue) && fresh(followUpQueue)
      ensures steeringQueue.enqueued == followUpQueue.enqueued == []
    {
      state := new AgentState(messages);
      steeringQueue := new PendingMessageQueue(steeringMode);
      followUpQueue := new PendingMessageQueue(followUpMode);
      this.toolExecution := toolExecution;
      activeRun, isStreaming := false, false;
      new;
      assert state.View().messages == messages;
    }

    method Steer(message: Message)
      requires Valid()
      modifies steeringQueue`messages, steeringQueue`enqueued
      ensures Valid() && steeringQueue.enqueued == old(steeringQueue.enqueued) + [message]
    {
      steeringQueue.Enqueue(message);
    }

    method FollowUp(message: Message)
      requires Valid()
      modifies followUpQueue`messages, followUpQueue`enqueued
      ensures Valid() && followUpQueue.enqueued == old(followUpQueue.enqueued) + [message]
    {
      followUpQueue.Enqueue(message);
    }

    // -------------------------------------------------------------- the run lifecycle

    /** runWithLifecycle, up to its executor. */
    method BeginRun()
      requires Valid() && !activeRun
      modifies this`activeRun, this`isStreaming, state
      ensures Valid() && Snapshot() == Begin(old(Snapshot()))
      ensures state.messages == old(state.messages)
    {
      activeRun, isStreaming := true, true;
      state.streamingMessage, state.errorMessage := None, None;
    }

    method FinishRun()
      requires Valid()
      modifies this`activeRun, this`isStreaming, state
      ensures Valid() && Snapshot() == Finish(old(Snapshot()))
      ensures state.messages == old(state.messages)
    {
      isStreaming := false;
      state.streamingMessage, state.pendingToolCalls := None, {};
      activeRun := false;
    }

    /** handleRunFailure, after a run that has emitted trace; the listeners of the failure's own
        agent_end may throw too. */
    method HandleRunFailure(error: string, aborted: bool, host: Host, trace: seq<Event>) returns (rethrown: bool)
      requires Valid() && activeRun
      modifies state
      ensures Valid() && Snapshot() == Fail(old(Snapshot()), error, aborted)
      ensures state.messages == old(state.messages) + [FailureMessage(error, aborted)]
      ensures ShowsFailure(state.View(), error, aborted)
      ensures EndsInResponse(state.View())
      ensures rethrown <==> host.listeners(trace + [AgentEnd([FailureMessage(error, aborted)])]).Thrown?
    {
      var failureMessage := FailureMessage(error, aborted);
      state.messages := state.messages + [failureMessage];
      state.errorMessage := failureMessage.errorMessage;
      state.ProcessEvent(AgentEnd([failureMessage]));
      rethrown := host.listeners(trace + [AgentEnd([failureMessage])]).Thrown?;
      FailEndsInResponse(old(Snapshot()), error, aborted);
      assert state.View() == Snapshot().view;
    }

    /** What every run leaves behind, however it settled, given the drains before it. */
    ghost predicate RunKept(run: RunRecord, messages0: seq<Message>, steered0: seq<Message>, followed0: seq<Message>,
                            mode: ToolMode)
      reads steeringQueue, followUpQueue
    {
      && run.view0.messages == messages0
      && run.view0.pendingToolCalls == {} && run.view0.streamingMessage == None && run.view0.errorMessage == None
      && Accepts(mode, run.trace)
      && Agreement(run.view0, run.trace, run.checkpoints)
      && WellOrdered(messages0 + run.prompts, run.log)
      && steeringQueue.taken == steered0 + SteeringOf(run.log)
      && followUpQueue.taken == followed0 + FollowUpsOf(run.log)
      && BatchesOf(run.prompts, run.log, run.batches)
    }

    /** What a call leaves behind in its host. A run fails only with an error thrown outside,
        and completes or waits only if nothing was. Of a run that threw, the transcript holds
        the messages of its message_end events and then the failure. */
    ghost predicate AfterRun(r: Settlement, run: RunRecord, messages0: seq<Message>, steered0: seq<Message>,
                             followed0: seq<Message>, mode: ToolMode, host: Host)
      reads this`activeRun, this`isStreaming, state, steeringQueue, followUpQueue
    {
      && Valid() && RunKept(run, messages0, steered0, followed0, mode)
      && (r.FailedRun? <==> !NothingThrew(host, run.trace, run.awaited))
      && (!r.FailedRun? ==> AllThrough(host, run.batches, run.trace))
      && match r
         case Completed =>
           && Idle(Snapshot()) && EndsInResponse(state.View())
           && state.messages == Fold(run.view0, run.trace).messages == messages0 + run.prompts + MessagesOf(run.log)
           && state.errorMessage == Fold(run.view0, run.trace).errorMessage
           && Finished(run.log) && Complete(mode, run.trace)
         case Waits =>
           && activeRun && isStreaming
           && state.View() == Fold(run.view0, run.trace)
           && state.messages == messages0 + run.prompts + MessagesOf(run.log)
           && run.log != [] && Last(run.log).Asked?
         case FailedRun(error, aborted, rethrown) =>
           && Idle(Snapshot()) && EndsInResponse(state.View()) && ShowsFailure(state.View(), error, aborted)
           && state.messages == Fold(run.view0, run.trace).messages + [FailureMessage(error, aborted)]
           && Fold(run.view0, run.trace).messages == messages0 + Ended(run.trace)
           && CutShort(run.prompts, run.log, Ended(run.trace))
           && Halted(host, run.prompts, run.log, run.batches, run.trace, Ended(run.trace))
           && ThrownBy(host, run.trace, run.awaited, error)
           && (rethrown <==> host.listeners(run.trace + [AgentEnd([FailureMessage(error, aborted)])]).Thrown?)
         case Rejected(_) => false
    }

    /** How many messages wait now, or were drained beyond steered and followed. */
    ghost function QueuedSince(steered: seq<Message>, followed: seq<Message>): int
      reads steeringQueue, followUpQueue
    {
      |steeringQueue.enqueued| - |steered| + |followUpQueue.enqueued| - |followed|
    }

    /** The transcript of a run is the fold of its trace. */
    lemma Folded(loop: AgentLoop)
      requires loop.Valid() && loop.Mon() != Bad && loop.sink == state
      ensures state.View() == Fold(loop.view0, loop.trace)
      ensures state.messages == loop.view0.messages + Ended(loop.trace)
      ensures EndedOf(loop.Mon()) == Ended(loop.trace) && Accepts(loop.mode, loop.trace)
    {
      TranscriptIsEnded(loop.view0, loop.trace);
      EndedIsTraced(loop.mode, loop.trace);
      assert state.View().messages == state.messages;
    }

    /** What a run has awaited. */
    lemma Heard(loop: AgentLoop, ended: Awaited)
      requires loop.Valid() && loop.Reports(ended)
      ensures ended.Normal? <==> NothingThrew(loop.host, loop.trace, loop.awaited)
      ensures ended.Thrown? ==> ThrownBy(loop.host, loop.trace, loop.awaited, ended.error)
    {
      hide Fold, Agreement, NothingThrew, ThrownBy;
      NothingThrewIff(loop.host, loop.trace, loop.awaited, loop.errors);
    }

    lemma QuietHost(host: Host, trace: seq<Event>, n: nat)
      ensures NeverThrows(host) ==> NothingThrew(host, trace, n)
    {
    }

    /** runWithLifecycle for a prompt run or a continuation: one run from beginning to
        settlement. It fails exactly when something outside throws. */
    method RunWithLifecycle(messages: seq<Message>, skipInitialSteeringPoll: bool, continuation: bool,
                            replies: seq<Reply>, host: Host)
      returns (r: Settlement, ghost run: RunRecord)
      requires Valid() && !activeRun
      requires continuation ==> messages == [] && state.messages != [] && !EndsInResponse(state.View())
      requires Protocol(replies)
      modifies this`activeRun, this`isStreaming, state, steeringQueue, followUpQueue
      ensures Valid() && !r.Rejected? && run.prompts == messages
      ensures AfterRun(r, run, old(state.messages), old(steeringQueue.taken), old(followUpQueue.taken),
                       toolExecution, host)
      ensures NeverThrows(host) ==> r.Completed? || r.Waits?
      ensures run.log != [] ==> FirstPoll(run.log[0], skipInitialSteeringPoll, old(steeringQueue.messages))
      ensures r.Waits? ==>
                |replies| <= RepliesWithCalls(replies) +
                             QueuedSince(old(steeringQueue.taken), old(followUpQueue.taken))
    {
      hide WellOrdered, MessagesOf, SteeringOf, FollowUpsOf, Run, Fold, Starts, Finished, CutShort, Ended, Agreement;
      hide BatchesOf, AllThrough, Halted, NothingThrew, ThrownBy, FirstPoll;
      BeginRun();
      var ended, finished, trace;
      ended, finished, trace, run := RunExecutor(messages, skipInitialSteeringPoll, continuation, replies, host);
      QuietHost(host, run.trace, run.awaited);
      match ended {
        case Thrown(error) =>
          var aborted: bool := *;
          var rethrown := HandleRunFailure(error, aborted, host, trace);
          FinishRun();
          r := FailedRun(error, aborted, rethrown);
        case Normal =>
          if finished {
            FinishRun();
            r := Completed;
          } else {
            r := Waits;
          }
      }
    }

    /** The executor: it takes the snapshot and runs the loop. */
    method RunExecutor(messages: seq<Message>, skipInitialSteeringPoll: bool, continuation: bool, replies: seq<Reply>,
                       host: Host)
      returns (ended: Awaited, finished: bool, trace: seq<Event>, ghost run: RunRecord)
      requires Valid() && activeRun
      requires state.pendingToolCalls == {} && state.streamingMessage == None && state.errorMessage == None
      requires continuation ==> messages == [] && state.messages != [] && !EndsInResponse(state.View())
      requires Protocol(replies)
      modifies state, steeringQueue, followUpQueue
      ensures Valid() && run.prompts == messages && run.view0 == old(state.View()) && run.trace == trace
      ensures RunKept(run, old(state.messages), old(steeringQueue.taken), old(followUpQueue.taken), toolExecution)
      ensures state.View() == Fold(run.view0, run.trace)
      ensures ended.Normal? <==> NothingThrew(host, run.trace, run.awaited)
      ensures run.log != [] ==> FirstPoll(run.log[0], skipInitialSteeringPoll, old(steeringQueue.messages))
      ensures ended.Normal? ==>
                && state.messages == old(state.messages) + messages + MessagesOf(run.log)
                && run.log != [] && AllThrough(host, run.batches, run.trace)
                && if finished then
                     Finished(run.log) && Complete(toolExecution, run.trace) && EndsInResponse(state.View())
                   else Last(run.log).Asked?
      ensures ended.Normal? && |replies| > RepliesWithCalls(replies) +
                                           QueuedSince(old(steeringQueue.taken), old(followUpQueue.taken)) ==>
                finished
      ensures ended.Thrown? ==>
                && state.messages == old(state.messages) + Ended(run.trace)
                && CutShort(messages, run.log, Ended(run.trace))
                && Halted(host, messages, run.log, run.batches, run.trace, Ended(run.trace))
                && ThrownBy(host, run.trace, run.awaited, ended.error)
    {
      hide WellOrdered, MessagesOf, SteeringOf, FollowUpsOf, Run, Fold, Live, Starts, Finished, AnswersOf, AnswerTo;
      hide CutShort, Ended, EndedOf, Agreement, Consumed, BatchesOf, AllThrough, Halted, NothingThrew, ThrownBy;
      hide FirstPoll, After, FirstThrow;
      var loop := new AgentLoop(toolExecution, steeringQueue, followUpQueue, state, state.messages, messages,
                                skipInitialSteeringPoll, host);
      assert old(state.messages) + [] == old(state.messages);
      var used;
      if continuation {
        var refused;
        ended, refused, finished, used := loop.RunAgentLoopContinue(replies);
      } else {
        ended, finished, used := loop.RunAgentLoop(replies);
      }
      trace := loop.trace;
      run := RunRecord(messages, loop.view0, loop.log, loop.trace, loop.awaited, loop.batches, loop.checkpoints);
      assert loop.Base() == old(state.messages) + messages;
      Folded(loop);
      Heard(loop, ended);
      if ended.Normal? {
        TranscriptOfRun(old(state.messages), messages, loop.newMessages, loop.log, state.View());
      }
    }

    /** Conservation over a whole run: everything queued was drained before it, or was drained
        by it, or still waits. What was drained by it stands in the transcript, unless the run
        threw, and then what is missing is the undelivered end of the newest batch. */
    lemma QueuesConserved(r: Settlement, run: RunRecord, messages0: seq<Message>, steered0: seq<Message>,
                          followed0: seq<Message>, mode: ToolMode, host: Host)
      returns (origins: seq<Origin>)
      requires AfterRun(r, run, messages0, steered0, followed0, mode, host)
      ensures |origins| == |MessagesOf(run.log)|
      ensures steeringQueue.enqueued ==
              steered0 + From(Steering, MessagesOf(run.log), origins) + steeringQueue.messages
      ensures followUpQueue.enqueued ==
              followed0 + From(FollowingUp, MessagesOf(run.log), origins) + followUpQueue.messages
      ensures r.Completed? || r.Waits? ==> state.messages == messages0 + (run.prompts + MessagesOf(run.log))
      ensures r.FailedRun? ==>
                forall i: nat :: i < |run.prompts + MessagesOf(run.log)| ==>
                  InPlaceOrLost(run, messages0, state.messages, i)
    {
      hide From, MessagesOf, SteeringOf, FollowUpsOf, OriginsOf, WellOrdered, Fold, Run, Ended, Agreement, Finished;
      hide InPlaceOrLost, CutShort, Halted, BatchesOf, AllThrough, NothingThrew, ThrownBy;
      origins := OriginsOf(run.log);
      OriginsAccount(run.log);
      assert messages0 + run.prompts + MessagesOf(run.log) == messages0 + (run.prompts + MessagesOf(run.log));
      if r.FailedRun? {
        forall i: nat | i < |run.prompts + MessagesOf(run.log)|
          ensures InPlaceOrLost(run, messages0, state.messages, i)
        {
          PlaceInFailedRun(run, messages0, FailureMessage(r.message, r.aborted), i);
        }
      }
    }

    /** Exactly when a run delivers every prompt and every drained message: when no listener
        throws on the path of one of its batches, before the end of the batch's last message.
        In a host whose listeners do not throw at the events that deliver messages, whatever
        else throws, it always does. The transcript is the messages delivered, and after a
        throw the failure. */
    lemma DeliversAllIff(r: Settlement, run: RunRecord, messages0: seq<Message>, steered0: seq<Message>,
                         followed0: seq<Message>, mode: ToolMode, host: Host)
      requires AfterRun(r, run, messages0, steered0, followed0, mode, host)
      ensures run.prompts + MessagesOf(run.log) <= Ended(run.trace) <==>
              forall b :: b in run.batches ==> !Loses(host, b)
      ensures SafeDelivery(host) ==> run.prompts + MessagesOf(run.log) <= Ended(run.trace)
      ensures state.messages == messages0 + Ended(run.trace) +
              if r.FailedRun? then [FailureMessage(r.message, r.aborted)] else []
    {
      hide Loses, Run, WellOrdered, MessagesOf, SteeringOf, FollowUpsOf, BatchesOf, Agreement, After, Ended, Fold;
      hide SafeDelivery, NothingThrew, ThrownBy, Finished;
      if SafeDelivery(host) {
        forall b | b in run.batches ensures !Loses(host, b) {
          SafeLosesNothing(host, run.prompts, run.log, run.batches, b);
        }
      }
      TranscriptIsEnded(run.view0, run.trace);
      if r.FailedRun? {
        LosesIff(host, run.prompts, run.log, run.batches, run.trace, Ended(run.trace));
        NothingLostMeans(run);
      } else {
        assert state.View().messages == state.messages;
        assert messages0 + run.prompts + MessagesOf(run.log) == messages0 + (run.prompts + MessagesOf(run.log));
        SameBack(messages0, run.prompts + MessagesOf(run.log), Ended(run.trace));
        forall b | b in run.batches ensures !Loses(host, b) {
          if b.messages == [] {
            EmptyLosesNothing(host, b);
          }
        }
      }
    }

    /** The error text of a run that completed is that of its latest response that carries one,
        and absent if none does. */
    lemma ErrorOfRun(run: RunRecord, messages0: seq<Message>, steered0: seq<Message>, followed0: seq<Message>,
                     mode: ToolMode, host: Host)
      requires AfterRun(Completed, run, messages0, steered0, followed0, mode, host)
      ensures state.errorMessage.Some? <==> exists i: nat :: i < |run.trace| && ShowsError(run.trace, i)
      ensures forall i: nat :: i < |run.trace| && ShowsError(run.trace, i)
                               && (forall j :: i < j < |run.trace| ==> !ShowsError(run.trace, j)) ==>
                state.errorMessage == run.trace[i].response.errorMessage
    {
      hide Run, WellOrdered, MessagesOf, SteeringOf, FollowUpsOf, BatchesOf, Agreement, Ended, Fold, Finished;
      hide NothingThrew, AllThrough, Idle, EndsInResponse, Valid;
      if k: nat :| k < |run.trace| && ShowsError(run.trace, k) {
        var i := LatestError(run.trace, k);
        ErrorIsLatest(run.view0, run.trace, i);
      } else {
        NoErrorShown(run.view0, run.trace);
      }
      forall i: nat | i < |run.trace| && ShowsError(run.trace, i)
                      && (forall j :: i < j < |run.trace| ==> !ShowsError(run.trace, j))
        ensures state.errorMessage == run.trace[i].response.errorMessage
      {
        ErrorIsLatest(run.view0, run.trace, i);
      }
    }

    /** Nothing a refused call can see has changed. */
    twostate predicate Untouched()
      reads this`activeRun, this`isStreaming, state, steeringQueue, followUpQueue
    {
      && Snapshot() == old(Snapshot())
      && steeringQueue.messages == old(steeringQueue.messages) && steeringQueue.taken == old(steeringQueue.taken)
      && followUpQueue.messages == old(followUpQueue.messages) && followUpQueue.taken == old(followUpQueue.taken)
    }

    /** prompt: refused while a run is active, otherwise one run with these messages. */
    method Prompt(messages: seq<Message>, replies: seq<Reply>, host: Host)
      returns (r: Settlement, ghost run: RunRecord)
      requires Valid() && Protocol(replies)
      modifies this`activeRun, this`isStreaming, state, steeringQueue, followUpQueue
      ensures Valid()
      ensures r.Rejected? <==> old(activeRun)
      ensures r.Rejected? ==> r.error == AlreadyProcessing && Untouched()
      ensures !r.Rejected? ==>
                && run.prompts == messages
                && AfterRun(r, run, old(state.messages), old(steeringQueue.taken), old(followUpQueue.taken),
                            toolExecution, host)
      ensures NeverThrows(host) ==> !r.FailedRun?
      ensures !r.Rejected? && run.log != [] ==> FirstPoll(run.log[0], false, old(steeringQueue.messages))
      ensures r.Waits? ==>
                |replies| <= RepliesWithCalls(replies) +
                             QueuedSince(old(steeringQueue.taken), old(followUpQueue.taken))
    {
      if activeRun {
        return Rejected(AlreadyProcessing), NO_RUN;
      }
      r, run := RunWithLifecycle(messages, false, false, replies, host);
    }

    /** continue: after an assistant message it sends queued steering messages as prompts
        (skipping the run's first steering poll), or else queued follow-ups; after any other
        message it runs without prompts. Messages it drains are the run's prompts. */
    method Continue(replies: seq<Reply>, host: Host) returns (r: Settlement, ghost run: RunRecord)
      requires Valid() && Protocol(replies)
      modifies this`activeRun, this`isStreaming, state, steeringQueue, followUpQueue
      ensures Valid()
      ensures r.Rejected? <==>
                || old(activeRun) || old(state.messages) == []
                || (old(EndsInResponse(state.View()))
                    && old(steeringQueue.messages) == [] && old(followUpQueue.messages) == [])
      ensures r.Rejected? ==> Untouched()
      ensures r.Rejected? ==> r.error == if old(activeRun) then AlreadyProcessing
                                         else if old(state.messages) == [] then NoMessages else CannotContinue
      ensures !r.Rejected? && !old(EndsInResponse(state.View())) ==>
                && run.prompts == []
                && AfterRun(r, run, old(state.messages), old(steeringQueue.taken), old(followUpQueue.taken),
                            toolExecution, host)
      ensures !r.Rejected? && old(EndsInResponse(state.View())) && old(steeringQueue.messages) != [] ==>
                && run.prompts != []
                && run.prompts == (if old(steeringQueue.mode) == All then old(steeringQueue.messages)
                                   else [old(steeringQueue.messages)[0]])
                && AfterRun(r, run, old(state.messages), old(steeringQueue.taken) + run.prompts,
                            old(followUpQueue.taken), toolExecution, host)
                && (run.log != [] ==> run.log[0].Polled? && run.log[0].messages == [])
      ensures !r.Rejected? && old(EndsInResponse(state.View())) && old(steeringQueue.messages) == [] ==>
                && run.prompts != []
                && run.prompts == (if old(followUpQueue.mode) == All then old(followUpQueue.messages)
                                   else [old(followUpQueue.messages)[0]])
                && AfterRun(r, run, old(state.messages), old(steeringQueue.taken),
                            old(followUpQueue.taken) + run.prompts, toolExecution, host)
      ensures !r.Rejected? && run.log != []
              && (!old(EndsInResponse(state.View())) || old(steeringQueue.messages) == []) ==>
                FirstPoll(run.log[0], false, old(steeringQueue.messages))
      ensures NeverThrows(host) ==> !r.FailedRun?
      ensures r.Waits? ==>
                |replies| <= RepliesWithCalls(replies) +
                             QueuedSince(old(steeringQueue.taken), old(followUpQueue.taken))
    {
      hide AfterRun, Protocol, NeverThrows, RepliesWithCalls;
      if activeRun {
        return Rejected(AlreadyProcessing), NO_RUN;
      }
      if |state.messages| == 0 {
        return Rejected(NoMessages), NO_RUN;
      }
      if state.messages[|state.messages| - 1].Assistant? {
        var queuedSteering := steeringQueue.Drain();
        if |queuedSteering| > 0 {
          r, run := RunWithLifecycle(queuedSteering, true, false, replies, host);
          return;
        }
        assert steeringQueue.taken == old(steeringQueue.taken);
        var queuedFollowUps := followUpQueue.Drain();
        if |queuedFollowUps| > 0 {
          r, run := RunWithLifecycle(queuedFollowUps, false, false, replies, host);
          return;
        }
        return Rejected(CannotContinue), NO_RUN;
      }
      r, run := RunWithLifecycle([], false, true, replies, host);
    }
  }
}
