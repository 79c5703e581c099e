/** The agent loop of packages/agent/src/agent-loop.ts, emitting into the event-sourced state
    of an Agent. At every emitted event, which the loop awaits, the outside world may queue
    messages and switch queue modes, and a listener may throw. */
module AgentLoops {
  import opened Awaiting
  import opened Basics
  import opened Delivery
  import opened Messages
  import opened Grammar
  import opened Transcript
  import opened PendingQueue
  import opened RunLog
  import opened Streaming
  import opened ToolExecution
  import opened ToolSchedule
  import opened ToolPhase

  /** One model response, and the tools and hooks as they behave for its calls. */
  datatype Reply = Reply(stream: ModelStream, world: World)

  /** Streams keep the event protocol: at most one start. */
  ghost predicate Protocol(replies: seq<Reply>) {
    forall i :: 0 <= i < |replies| ==> Starts(Live(replies[i].stream)) <= 1
  }

  /** The log entry a reply leads to: its tool results are those of its tool phase. */
  ghost function AnswerTo(mode: ToolMode, reply: Reply): Entry {
    var r := reply.stream.result;
    Answered(r, if Failed(r) || ToolCalls(r) == [] then [] else PhaseResults(mode, reply.world, ToolCalls(r)))
  }

  /** The first n replies have been consumed, in order, one per answer. */
  ghost predicate Consumed(mode: ToolMode, log: seq<Entry>, replies: seq<Reply>, n: nat) {
    && n <= |replies| && |AnswersOf(log)| == n
    && forall i :: 0 <= i < n ==> AnswersOf(log)[i] == AnswerTo(mode, replies[i])
  }

  lemma NoAnswers()
    ensures AnswersOf([]) == []
  {
  }

  lemma AnswersNext(log: seq<Entry>, e: Entry)
    ensures AnswersOf(log + [e]) == AnswersOf(log) + if e.Answered? then [e] else []
  {
    assert (log + [e])[..|log|] == log;
  }

  // ---------------------------------------------------------------- termination

  /** The replies that carry tool calls. */
  ghost function RepliesWithCalls(replies: seq<Reply>): nat {
    if replies == [] then 0
    else
      var last := replies[|replies| - 1];
      RepliesWithCalls(replies[..|replies| - 1]) + if ToolCalls(last.stream.result) != [] then 1 else 0
  }

  /** The replies whose response holds a call block. */
  ghost function CallingReplies(replies: seq<Reply>): set<nat> {
    set i: nat | i < |replies| && HasCallBlock(replies[i].stream.result.content)
  }

  lemma {:induction false} RepliesCounted(replies: seq<Reply>)
    ensures RepliesWithCalls(replies) == |CallingReplies(replies)|
  {
    if replies != [] {
      var n := |replies| - 1;
      RepliesCounted(replies[..n]);
      NoCallBlocks(replies[n].stream.result);
      RepliesNext(replies);
      hide CallingReplies, ToolCalls, HasCallBlock;
    }
  }

  lemma RepliesNext(replies: seq<Reply>)
    requires replies != []
    ensures var n := |replies| - 1;
            && n !in CallingReplies(replies[..n])
            && CallingReplies(replies) == CallingReplies(replies[..n]) +
               (if HasCallBlock(replies[n].stream.result.content) then {n} else {})
  {
    hide HasCallBlock;
  }

  lemma {:induction false} CallsOfAnswers(mode: ToolMode, answers: seq<Entry>, replies: seq<Reply>)
    requires |answers| == |replies|
    requires forall i :: 0 <= i < |answers| ==> answers[i] == AnswerTo(mode, replies[i])
    ensures ResponsesWithCalls(answers) == RepliesWithCalls(replies)
  {
    hide ToolCalls, PhaseResults;
    if answers != [] {
      CallsOfAnswers(mode, answers[..|answers| - 1], replies[..|replies| - 1]);
    }
  }

  /** A run that waits at a request after all replies has had a response with calls, or a
      drained message, for every one of them. */
  lemma WaitingBound(base: seq<Message>, mode: ToolMode, log: seq<Entry>, replies: seq<Reply>)
    requires WellOrdered(base, log) && log != [] && Last(log).Asked? && Consumed(mode, log, replies, |replies|)
    ensures |replies| <= RepliesWithCalls(replies) + |SteeringOf(log)| + |FollowUpsOf(log)|
  {
    hide WellOrdered, AnswersOf, AnswerTo, SteeringOf, FollowUpsOf;
    WaitingIsPaidFor(base, log);
    ResponsesCounted(log);
    AnswersCount(log);
    CallsOfAnswers(mode, AnswersOf(log), replies);
  }

  // ---------------------------------------------------------------- transcript agreement

  /** The two transcripts as a turn_end or agent_end finds them: the loop's private one, and
      the one folded from events. */
  datatype Checkpoint = Checkpoint(context: seq<Message>, newMessages: seq<Message>, transcript: seq<Message>)

  predicate IsBoundary(e: Event) {
    e.TurnEnd? || e.AgentEnd?
  }

  /** At event i, both transcripts are the one before the run followed by newMessages. */
  ghost predicate AgreeAt(view0: AgentView, trace: seq<Event>, i: nat, c: Checkpoint)
    requires i < |trace|
  {
    && c.transcript == Fold(view0, trace[..i + 1]).messages
    && c.context == c.transcript == view0.messages + c.newMessages
  }

  /** Transcript agreement: every turn_end and agent_end of the trace has its checkpoint, and
      there the transcripts agree. */
  ghost predicate Agreement(view0: AgentView, trace: seq<Event>, checkpoints: map<nat, Checkpoint>) {
    forall i: nat :: i < |trace| && IsBoundary(trace[i]) ==>
      i in checkpoints && AgreeAt(view0, trace, i, checkpoints[i])
  }

  lemma AgreementNext(view0: AgentView, trace: seq<Event>, checkpoints: map<nat, Checkpoint>, e: Event)
    requires Agreement(view0, trace, checkpoints) && !IsBoundary(e)
    ensures Agreement(view0, trace + [e], checkpoints)
  {
    hide Fold;
    var longer := trace + [e];
    forall i: nat | i < |longer| && IsBoundary(longer[i])
      ensures i in checkpoints && AgreeAt(view0, longer, i, checkpoints[i])
    {
      assert longer[i] == trace[i];
      assert longer[..i + 1] == trace[..i + 1];
    }
  }

  lemma AgreementAtBoundary(view0: AgentView, trace: seq<Event>, checkpoints: map<nat, Checkpoint>,
                            e: Event, c: Checkpoint)
    requires Agreement(view0, trace, checkpoints)
    requires c.transcript == Fold(view0, trace + [e]).messages
    requires c.context == c.transcript == view0.messages + c.newMessages
    ensures Agreement(view0, trace + [e], checkpoints[|trace| := c])
  {
    hide Fold;
    var longer := trace + [e];
    forall i: nat | i < |longer| && IsBoundary(longer[i])
      ensures i in checkpoints[|trace| := c] && AgreeAt(view0, longer, i, checkpoints[|trace| := c][i])
    {
      if i < |trace| {
        assert longer[i] == trace[i];
        assert longer[..i + 1] == trace[..i + 1];
      } else {
        assert longer[..i + 1] == longer;
      }
    }
  }

  lemma NothingEmitted(mode: ToolMode, view0: AgentView)
    ensures Run(mode, []) == Fresh && Fold(view0, []) == view0 && Agreement(view0, [], map[])
  {
  }

  lemma RunOpens(mode: ToolMode)
    ensures Next(mode, Fresh, AgentStart) == Started && Next(mode, Started, TurnStart) == Talking([], Closed, None)
  {
  }

  lemma NothingEnded(m: Message)
    ensures Ended([AgentStart, TurnStart, MessageStart(m)]) == []
  {
    var trace := [AgentStart, TurnStart, MessageStart(m)];
    assert trace[..2] == [AgentStart, TurnStart] && [AgentStart, TurnStart][..1] == [AgentStart];
    assert [AgentStart][..0] == [];
  }

  lemma {:induction false} DrainedFirst(log: seq<Entry>)
    requires log != [] && log[0].Polled?
    ensures log[0].messages <= SteeringOf(log)
  {
    if |log| > 1 {
      DrainedFirst(log[..|log| - 1]);
    }
  }

  lemma NothingLogged(base: seq<Message>, prompts: seq<Message>)
    ensures WellOrdered(base, []) && prompts + [] == prompts + MessagesOf([]) == prompts
    ensures SteeringOf([]) == [] && FollowUpsOf([]) == []
  {
  }

  /** What has been delivered stays delivered. */
  lemma DeliveredGrows(mode: ToolMode, trace: seq<Event>, longer: seq<Event>)
    requires trace <= longer && Accepts(mode, longer)
    ensures EndedOf(Run(mode, trace)) <= EndedOf(Run(mode, longer))
  {
    hide Run, EndedOf, Ended;
    PrefixAccepted(mode, longer, |trace|);
    assert longer[..|trace|] == trace;
    EndedIsTraced(mode, trace);
    EndedIsTraced(mode, longer);
    EndedConcat(trace, longer[|trace|..]);
    assert trace + longer[|trace|..] == longer;
  }

  datatype TurnsOutcome = Stopped | RunEnded | Waiting

  function BracketOf(partialMessage: Option<AssistantMessage>): Bracket {
    if partialMessage.Some? then Open(partialMessage.value) else Closed
  }

  /** Context, trace and monitor after i events of a stream, from what they were before. */
  ghost predicate InStream(events: seq<StreamEvent>, i: nat, partialMessage: Option<AssistantMessage>,
                           context0: seq<Message>, context: seq<Message>, trace0: seq<Event>, trace: seq<Event>,
                           monitor: Monitor, ended: seq<Message>, last: Option<Message>)
    requires i <= |events|
  {
    && (Slots(events[..i]) != [] <==> partialMessage.Some?)
    && context == context0 + Slots(events[..i])
    && trace == trace0 + Emissions(events[..i])
    && (Starts(events[..i]) <= 1 ==> monitor == Talking(ended, BracketOf(partialMessage), last))
  }

  ghost function SlotsAfter(e: StreamEvent, open: bool, context: seq<Message>): seq<Message>
    requires open ==> context != []
    requires !e.EndEvent?
  {
    if e.StartEvent? then context + [e.partial] else if open then context[|context| - 1 := e.partial] else context
  }

  ghost function EmissionsOf(e: StreamEvent, open: bool): seq<Event>
    requires !e.EndEvent?
  {
    if e.StartEvent? then [MessageStart(e.partial)] else if open then [MessageUpdate(e.partial, e)] else []
  }

  lemma InStreamStep(events: seq<StreamEvent>, i: nat,
                     partialMessage: Option<AssistantMessage>, next: Option<AssistantMessage>,
                     context0: seq<Message>, context: seq<Message>, context': seq<Message>,
                     trace0: seq<Event>, trace: seq<Event>, trace': seq<Event>,
                     monitor: Monitor, monitor': Monitor, ended: seq<Message>, last: Option<Message>)
    requires i < |events| && !events[i].EndEvent?
    requires InStream(events, i, partialMessage, context0, context, trace0, trace, monitor, ended, last)
    requires partialMessage.Some? ==> context != []
    requires next == if events[i].StartEvent? || partialMessage.Some? then Some(events[i].partial) else None
    requires context' == SlotsAfter(events[i], partialMessage.Some?, context)
    requires trace' == trace + EmissionsOf(events[i], partialMessage.Some?)
    requires monitor == Talking(ended, BracketOf(partialMessage), last) ==>
             (events[i].StartEvent? ==> partialMessage.None?) ==>
               monitor' == Talking(ended, BracketOf(next), last)
    ensures InStream(events, i + 1, next, context0, context', trace0, trace', monitor', ended, last)
  {
    hide Slots, Emissions, Starts;
    Consume(events, i);
  }

  lemma InStreamStarts(events: seq<StreamEvent>, context: seq<Message>, trace: seq<Event>,
                       monitor: Monitor, ended: seq<Message>, last: Option<Message>)
    requires monitor == Talking(ended, Closed, last)
    ensures InStream(events, 0, None, context, context, trace, trace, monitor, ended, last)
  {
    assert context + [] == context && trace + [] == trace;
  }

  lemma InStreamEnds(stream: ModelStream, i: nat, partialMessage: Option<AssistantMessage>,
                     context0: seq<Message>, context: seq<Message>, trace0: seq<Event>, trace: seq<Event>,
                     monitor: Monitor, ended: seq<Message>, last: Option<Message>)
    requires i == LiveCount(stream.events)
    requires InStream(stream.events, i, partialMessage, context0, context, trace0, trace, monitor, ended, last)
    ensures partialMessage.Some? ==> context != []
    ensures (if partialMessage.Some? then context[|context| - 1 := stream.result] else context + [stream.result])
            == context0 + Appended(stream)
    ensures trace + (if partialMessage.Some? then [] else [MessageStart(stream.result)]) + [MessageEnd(stream.result)]
            == trace0 + StreamTrace(stream)
    ensures Starts(Live(stream)) <= 1 ==> monitor == Talking(ended, BracketOf(partialMessage), last)
  {
    hide Slots, Emissions, Starts;
  }

  lemma InStreamOpen(events: seq<StreamEvent>, i: nat, partialMessage: Option<AssistantMessage>,
                     context0: seq<Message>, context: seq<Message>, trace0: seq<Event>, trace: seq<Event>,
                     monitor: Monitor, ended: seq<Message>, last: Option<Message>)
    requires i <= |events|
    requires InStream(events, i, partialMessage, context0, context, trace0, trace, monitor, ended, last)
    ensures partialMessage.Some? ==> context != []
    ensures Starts(events[..i]) <= 1 ==> monitor == Talking(ended, BracketOf(partialMessage), last)
    ensures trace0 <= trace
  {
  }

  lemma SameFront(a: seq<Message>, b: seq<Message>, rest: seq<Message>)
    requires a + rest == b + rest
    ensures a == b
  {
    assert forall k :: 0 <= k < |a| ==> a[k] == (a + rest)[k] && b[k] == (b + rest)[k];
  }

  /** The loop has not taken up call k. */
  predicate Upcoming(s: Sched, k: nat) {
    s.current < k || (s.current == k && s.stage.Awaiting?)
  }

  /** Every error of the concurrent part is held by the listeners of a call the loop has not
      taken up, and these hold nothing else. */
  ghost predicate Unreported(s: Sched, listeners: seq<Awaited>, errors: seq<string>) {
    && (forall k :: 0 <= k < |listeners| && listeners[k].Thrown? ==> listeners[k].error in errors)
    && (errors != [] ==> exists k :: 0 <= k < |listeners| && Upcoming(s, k) && listeners[k].Thrown?)
  }

  /** What the listeners of a call's updates have thrown first. */
  function Held(listeners: seq<Awaited>, c: Choice, r: Awaited): (held: seq<Awaited>)
    ensures |held| == |listeners|
  {
    if c.Worker? && c.task < |listeners| && listeners[c.task].Normal? then listeners[c.task := r] else listeners
  }

  lemma NothingHeld(tasks: seq<Task>)
    ensures Unreported(Init(tasks), seq(|tasks|, i => Normal), [])
  {
  }

  /** One step of the schedule, whose event's listeners end in r. */
  lemma StepHolds(tasks: seq<Task>, s: Sched, c: Choice, listeners: seq<Awaited>, errors: seq<string>, r: Awaited)
    requires Inv(tasks, s) && Enabled(tasks, s, c) && |listeners| == |tasks|
    requires Unreported(s, listeners, errors)
    requires c.Loop? ==> r.Normal? && (s.stage.Awaiting? ==> s.current < |tasks| && listeners[s.current].Normal?)
    ensures Unreported(Step(tasks, s, c), Held(listeners, c, r), Raised(errors, r))
  {
    hide Delivered, Streamed, Quiet, Lasting;
    var s', held, all := Step(tasks, s, c), Held(listeners, c, r), Raised(errors, r);
    if c.Worker? {
      assert Upcoming(s, c.task) && s'.current == s.current && s'.stage == s.stage;
      if r.Thrown? {
        assert held[c.task].Thrown?;
      } else if errors != [] {
        var k :| 0 <= k < |listeners| && Upcoming(s, k) && listeners[k].Thrown?;
        assert held[k].Thrown?;
      }
    } else if errors != [] {
      var k :| 0 <= k < |listeners| && Upcoming(s, k) && listeners[k].Thrown?;
      assert Upcoming(s', k);
    }
  }

  lemma HeldIsThrown(s: Sched, listeners: seq<Awaited>, errors: seq<string>, k: nat)
    requires Unreported(s, listeners, errors) && k < |listeners|
    ensures listeners[k].Thrown? ==> listeners[k].error in errors
  {
  }

  lemma AllReported(tasks: seq<Task>, s: Sched, listeners: seq<Awaited>, errors: seq<string>)
    requires Unreported(s, listeners, errors) && s.current == |tasks| == |listeners|
    ensures errors == []
  {
  }

  /** The first poll of a run: it is skipped when the run is told to, and otherwise takes all or
      the oldest, as the queue's mode says, of what waits, which is at least what waited when the
      run began. */
  ghost predicate FirstPoll(e: Entry, skipped: bool, waited: seq<Message>) {
    && e.Polled? && waited <= e.waiting
    && if skipped || e.waiting == [] then e.messages == []
       else
         match e.mode
         case All => e.messages == e.waiting
         case OneAtATime => e.messages == [e.waiting[0]]
  }

  /** What opens the turn a polled batch goes into. */
  function OpeningOf(firstTurn: bool): seq<Event> {
    if firstTurn then [] else [TurnStart]
  }

  class AgentLoop {
    const mode: ToolMode
    const steering: PendingMessageQueue
    const followUps: PendingMessageQueue
    const sink: AgentState

    var context: seq<Message>                 // currentContext.messages
    var newMessages: seq<Message>
    var skipInitialSteeringPoll: bool

    ghost const view0: AgentView              // the sink's state when the run began
    const prompts: seq<Message>
    ghost const steered0: seq<Message>        // drained from each queue before the run
    ghost const followed0: seq<Message>
    const host: Host                          // the code around the run
    var trace: seq<Event>                     // everything emitted so far
    var awaited: nat                          // how many other calls were made
    ghost var errors: seq<string>             // what outside code has thrown
    ghost var log: seq<Entry>
    ghost var batches: seq<Batch>
    ghost var checkpoints: map<nat, Checkpoint>

    /** Structural validity: the sink is the fold of the trace, the transcripts agree at every
        boundary, the queues conserve. */
    ghost predicate Valid()
      reads this`trace, this`awaited, this`errors, this`checkpoints, sink, steering, followUps
    {
      && steering != followUps && steering.Valid() && followUps.Valid()
      && sink.View() == Fold(view0, trace)
      && Agreement(view0, trace, checkpoints)
      && Recorded(host, trace, awaited, errors)
    }

    /** A step ends in a throw exactly when outside code has thrown, with an error it threw. */
    ghost predicate Reports(r: Awaited)
      reads this`errors
    {
      if r.Thrown? then r.error in errors else errors == []
    }

    ghost function Mon(): Monitor
      reads this`trace
    {
      Run(mode, trace)
    }

    /** A step has thrown: what it had emitted stays emitted, and was grammatical. */
    ghost predicate Broken(trace0: seq<Event>)
      reads this`trace, this`awaited, this`errors, this`checkpoints, sink, steering, followUps
    {
      Valid() && Mon() != Bad && trace0 <= trace
    }

    constructor (mode: ToolMode, steering: PendingMessageQueue, followUps: PendingMessageQueue, sink: AgentState,
                 snapshot: seq<Message>, prompts: seq<Message>, skipInitialSteeringPoll: bool, host: Host)
      requires steering != followUps && steering.Valid() && followUps.Valid()
      requires snapshot == sink.messages
      ensures Valid() && trace == [] && log == [] && checkpoints == map[] && awaited == 0 && errors == []
      ensures this.host == host && batches == [Batch(prompts, [], [AgentStart, TurnStart])]
      ensures this.mode == mode && this.steering == steering && this.followUps == followUps && this.sink == sink
      ensures view0 == sink.View() && this.prompts == prompts
      ensures steered0 == steering.taken && followed0 == followUps.taken
      ensures context == snapshot + prompts && newMessages == prompts
      ensures this.skipInitialSteeringPoll == skipInitialSteeringPoll
    {
      this.mode, this.steering, this.followUps, this.sink := mode, steering, followUps, sink;
      context, newMessages := snapshot + prompts, prompts;
      this.skipInitialSteeringPoll := skipInitialSteeringPoll;
      view0, this.prompts := sink.View(), prompts;
      steered0, followed0 := steering.taken, followUps.taken;
      this.host, trace, awaited := host, [], 0;
      errors, log, checkpoints := [], [], map[];
      batches := [Batch(prompts, [], [AgentStart, TurnStart])];
      NothingRecorded(host);
    }

    // -------------------------------------------------------------- awaiting

    /** What others do while the loop awaits: any number of steer and followUp calls and
        mode switches. Nobody else drains. */
    method Outside()
      requires Valid()
      modifies steering`messages, steering`enqueued, steering`mode
      modifies followUps`messages, followUps`enqueued, followUps`mode
      ensures Valid()
      ensures old(steering.enqueued) <= steering.enqueued && old(followUps.enqueued) <= followUps.enqueued
      ensures old(steering.messages) <= steering.messages
    {
      hide Fold, Agreement, Recorded;
      var n: nat := *;
      while n > 0
        invariant Valid()
        invariant old(steering.enqueued) <= steering.enqueued && old(followUps.enqueued) <= followUps.enqueued
      {
        var message: Message := *;
        var newMode: QueueMode := *;
        if {
          case true => steering.Enqueue(message);
          case true => followUps.Enqueue(message);
          case true => steering.mode := newMode;
          case true => followUps.mode := newMode;
        }
        n := n - 1;
      }
      assert steering.messages == steering.enqueued[|steering.taken|..];
      assert old(steering.messages) == old(steering.enqueued)[|steering.taken|..];
    }

    /** Calls code that is not the loop's own. */
    method CallOut() returns (r: Awaited)
      requires Valid()
      modifies this`awaited, this`errors
      ensures Valid() && r == host.calls(old(awaited)) && awaited == old(awaited) + 1
      ensures errors == Raised(old(errors), r)
    {
      hide Fold, Agreement, Recorded;
      RecordedCall(host, trace, awaited, errors);
      r := host.calls(awaited);
      awaited, errors := awaited + 1, Raised(errors, r);
    }

    /** Emits an event inside a turn or opening one, and awaits its listeners. The event is
        processed before a listener can throw. */
    method Emit(e: Event) returns (r: Awaited)
      requires Valid() && !IsBoundary(e)
      modifies this`errors, this`trace, sink
      modifies steering`messages, steering`enqueued, steering`mode
      modifies followUps`messages, followUps`enqueued, followUps`mode
      ensures Valid() && errors == Raised(old(errors), r)
      ensures old(errors) == [] && r.Thrown? ==> FirstThrow(host, trace)
      ensures trace == old(trace) + [e]
      ensures Mon() == Next(mode, old(Mon()), e)
      ensures old(steering.messages) <= steering.messages
      ensures Lasting(trace) == Lasting(old(trace)) + if e.ToolUpdate? then [] else [e]
    {
      hide Run, Fold, Lasting, Next, Reduce, Agreement, Recorded, FirstThrow, NothingThrew;
      RunNext(mode, trace, e);
      FoldNext(view0, trace, e);
      LastingNext(trace, e);
      AgreementNext(view0, trace, checkpoints, e);
      RecordedEvent(host, trace, awaited, errors, e);
      NothingThrewIff(host, trace, awaited, errors);
      trace := trace + [e];
      r := host.listeners(trace);
      if errors == [] && r.Thrown? {
        FirstThrowAtEvent(host, old(trace), awaited, e);
      }
      errors := Raised(errors, r);
      sink.ProcessEvent(e);
      Outside();
    }

    /** Emits turn_end or agent_end, both transcripts agreeing. */
    method EmitBoundary(e: Event) returns (r: Awaited)
      requires Valid() && IsBoundary(e)
      requires Next(mode, Mon(), e) != Bad
      requires context == view0.messages + newMessages && EndedOf(Next(mode, Mon(), e)) == newMessages
      modifies this`errors, this`trace, this`checkpoints, sink
      modifies steering`messages, steering`enqueued, steering`mode
      modifies followUps`messages, followUps`enqueued, followUps`mode
      ensures Valid() && errors == Raised(old(errors), r)
      ensures old(errors) == [] && r.Thrown? ==> FirstThrow(host, trace)
      ensures trace == old(trace) + [e]
      ensures Mon() == Next(mode, old(Mon()), e)
      ensures checkpoints == old(checkpoints)[|old(trace)| := Checkpoint(context, newMessages, context)]
    {
      hide Run, Fold, Next, Reduce, EndedOf, Agreement, Recorded, FirstThrow, NothingThrew;
      RunNext(mode, trace, e);
      FoldNext(view0, trace, e);
      TranscriptIsEnded(view0, trace + [e]);
      EndedIsTraced(mode, trace + [e]);
      ghost var c := Checkpoint(context, newMessages, Reduce(sink.View(), e).messages);
      AgreementAtBoundary(view0, trace, checkpoints, e, c);
      checkpoints := checkpoints[|trace| := c];
      RecordedEvent(host, trace, awaited, errors, e);
      NothingThrewIff(host, trace, awaited, errors);
      trace := trace + [e];
      r := host.listeners(trace);
      if errors == [] && r.Thrown? {
        FirstThrowAtEvent(host, old(trace), awaited, e);
      }
      errors := Raised(errors, r);
      sink.ProcessEvent(e);
      Outside();
    }

    /** The bracket of a message that is not a response, in a turn; ended says whether its
        message_end was reached. */
    method EmitMessage(m: Message) returns (r: Awaited, ended: bool)
      requires errors == []
      requires Valid() && Mon().Talking? && Mon().bracket.Closed?
      modifies this`errors, this`trace, sink
      modifies steering`messages, steering`enqueued, steering`mode
      modifies followUps`messages, followUps`enqueued, followUps`mode
      ensures Valid() && (r.Normal? ==> ended)
      ensures trace == old(trace) + [MessageStart(m)] + (if ended then [MessageEnd(m)] else [])
      ensures EndedOf(Mon()) == old(Mon()).ended + (if ended then [m] else []) && Mon() != Bad
      ensures ended ==> Mon() == Talking(old(Mon()).ended + [m], Closed, Some(m))
      ensures old(steering.messages) <= steering.messages
      ensures r.Thrown? ==> FirstThrow(host, trace)
      ensures Reports(r)
    {
      hide Run, Fold, Reduce, Lasting, Next, Valid, FirstThrow;
      BracketNext(mode, Mon().ended, Mon().last, m);
      ended := false;
      :- Emit(MessageStart(m));
      ended := true;
      r := Emit(MessageEnd(m));
    }

    // -------------------------------------------------------------- streaming a response

    /** streamAssistantResponse, for every stream: the context gains the stream's appended
        entries and the trace the stream's emissions. With at most one start the final
        message is delivered as one bracket. The call may throw before the first event, at
        any event, and at its end. */
    method StreamAssistantResponse(stream: ModelStream) returns (r: Awaited, message: AssistantMessage)
      requires errors == []
      requires Valid()
      requires Mon().Talking? && Mon().bracket.Closed?
      modifies this`awaited, this`errors, this`trace, this`context, sink
      modifies steering`messages, steering`enqueued, steering`mode
      modifies followUps`messages, followUps`enqueued, followUps`mode
      ensures Valid() && message == stream.result
      ensures r.Normal? ==> context == old(context) + Appended(stream) && trace == old(trace) + StreamTrace(stream)
      ensures r.Normal? && Starts(Live(stream)) <= 1 ==>
                Mon() == Talking(old(Mon()).ended + [message], Closed, Some(message))
      ensures r.Thrown? && Starts(Live(stream)) <= 1 ==> Broken(old(trace))
      ensures Reports(r)
    {
      hide Valid, Mon, Lasting, InStream, SlotsAfter, EmissionsOf, Slots, Emissions, Starts;
      message := stream.result;
      var partialMessage: Option<AssistantMessage> := None;
      ghost var ended, last := Mon().ended, Mon().last;
      ghost var context0, trace0 := context, trace;
      var events := stream.events;
      :- CallOut();
      InStreamStarts(events, context, trace, Mon(), ended, last);
      var i := 0;
      while i < |events| && !events[i].EndEvent?
        invariant 0 <= i <= LiveCount(events)
        invariant Valid()
        invariant InStream(events, i, partialMessage, context0, context, trace0, trace, Mon(), ended, last)
        invariant errors == []
        decreases |events| - i
      {
        InStreamOpen(events, i, partialMessage, context0, context, trace0, trace, Mon(), ended, last);
        StartsSoFar(stream, i);
        StartsSoFar(stream, i + 1);
        :- CallOut();
        ghost var partial, context1, trace1, monitor1 := partialMessage, context, trace, Mon();
        var thrown;
        thrown, partialMessage := HandleStreamEvent(events[i], partialMessage, ended, last);
        InStreamStep(events, i, partial, partialMessage, context0, context1, context, trace0, trace1, trace,
                     monitor1, Mon(), ended, last);
        i := i + 1;
        InStreamOpen(events, i, partialMessage, context0, context, trace0, trace, Mon(), ended, last);
        :- thrown;
      }
      InStreamOpen(events, i, partialMessage, context0, context, trace0, trace, Mon(), ended, last);
      StartsSoFar(stream, i);
      :- CallOut();
      ghost var context1, trace1, monitor1 := context, trace, Mon();
      r := FinishResponse(message, partialMessage.Some?);
      InStreamEnds(stream, i, partialMessage, context0, context1, trace0, trace1, monitor1, ended, last);
    }

    /** One event of the stream: a start appends its partial to the context, a later event
        overwrites the last slot in place, an event before any start is ignored. */
    method HandleStreamEvent(e: StreamEvent, partialMessage: Option<AssistantMessage>,
                             ghost ended: seq<Message>, ghost last: Option<Message>)
      returns (r: Awaited, next: Option<AssistantMessage>)
      requires errors == []
      requires Valid() && !e.EndEvent?
      requires partialMessage.Some? ==> context != []
      modifies this`awaited, this`errors, this`trace, this`context, sink
      modifies steering`messages, steering`enqueued, steering`mode
      modifies followUps`messages, followUps`enqueued, followUps`mode
      ensures Valid()
      ensures next == if e.StartEvent? || partialMessage.Some? then Some(e.partial) else None
      ensures context == SlotsAfter(e, partialMessage.Some?, old(context))
      ensures trace == old(trace) + EmissionsOf(e, partialMessage.Some?)
      ensures old(Mon()) == Talking(ended, BracketOf(partialMessage), last) ==>
              (e.StartEvent? ==> partialMessage.None?) ==>
                Mon() == Talking(ended, BracketOf(next), last)
      ensures Reports(r)
    {
      hide Valid, Run, Fold, Lasting, MayStart, NextTooling, Reduce, ToolCalls;
      r, next := Normal, partialMessage;
      match e {
        case StartEvent(partial) =>
          next := Some(partial);
          context := context + [partial];
          r := Emit(MessageStart(partial));
        case DeltaEvent(partial) =>
          if partialMessage.Some? {
            next := Some(partial);
            context := context[|context| - 1 := partial];
            r := Emit(MessageUpdate(partial, e));
          }
      }
    }

    /** The final message replaces the partial in the last slot, or is appended. */
    method FinishResponse(message: AssistantMessage, addedPartial: bool) returns (r: Awaited)
      requires errors == []
      requires Valid()
      requires addedPartial ==> context != []
      modifies this`awaited, this`errors, this`trace, this`context, sink
      modifies steering`messages, steering`enqueued, steering`mode
      modifies followUps`messages, followUps`enqueued, followUps`mode
      ensures Valid()
      ensures context == if addedPartial then old(context)[|old(context)| - 1 := message]
                         else old(context) + [message]
      ensures r.Normal? ==>
                trace == old(trace) + (if addedPartial then [] else [MessageStart(message)]) + [MessageEnd(message)]
      ensures old(Mon()).Talking? &&
              (if addedPartial then old(Mon()).bracket.Open? && old(Mon()).bracket.message.Assistant?
               else old(Mon()).bracket.Closed?) ==>
                if r.Normal? then Mon() == Talking(old(Mon()).ended + [message], Closed, Some(message))
                else Broken(old(trace))
      ensures Reports(r)
    {
      hide Valid, Run, Fold, Lasting, MayStart, NextTooling, Reduce, ToolCalls;
      if addedPartial {
        context := context[|context| - 1 := message];
      } else {
        context := context + [message];
        :- Emit(MessageStart(message));
      }
      r := Emit(MessageEnd(message));
    }

    // -------------------------------------------------------------- tool calls

    /** emitToolCallOutcome: the end of a running call and the bracket of its result message. */
    method EmitToolCallOutcome(call: ToolCall, outcome: Outcome) returns (r: Awaited, result: Message)
      requires errors == []
      requires Valid()
      requires Mon().Tooling? && Mon().bracket.Closed? && Mon().due.None? && call.id in Mon().running
      modifies this`awaited, this`errors, this`trace, sink
      modifies steering`messages, steering`enqueued, steering`mode
      modifies followUps`messages, followUps`enqueued, followUps`mode
      ensures Valid() && result == ResultMessage(call, outcome)
      ensures r.Normal? ==>
                var m := old(Mon());
                Mon() == m.(ended := m.ended + [result], running := m.running - multiset{call.id},
                            results := m.results + [result])
      ensures r.Normal? ==>
                Lasting(trace) == Lasting(old(trace)) +
                [ToolEnd(call.id, call.name, outcome.output, outcome.isError), MessageStart(result), MessageEnd(result)]
      ensures r.Normal? ==>
                trace == old(trace) +
                [ToolEnd(call.id, call.name, outcome.output, outcome.isError), MessageStart(result), MessageEnd(result)]
      ensures r.Thrown? ==> Broken(old(trace))
      ensures Reports(r)
    {
      hide Valid, Run, Fold, Lasting, MayStart, NextTalking, Reduce, ToolCalls;
      result := ResultMessage(call, outcome);
      :- Emit(ToolEnd(call.id, call.name, outcome.output, outcome.isError));
      :- Emit(MessageStart(result));
      r := Emit(MessageEnd(result));
    }

    /** executePreparedToolCall, when no other call runs: every partial result is emitted
        before the outcome is known; an error thrown by their listeners surfaces after it. */
    method ExecutePreparedToolCall(w: World, k: nat, call: ToolCall, p: Preparation)
      returns (r: Awaited, executed: Outcome)
      requires errors == []
      requires Valid()
      requires p == Prepare(w, k, call) && p.Prepared?
      requires Mon().Tooling? && call.id in Mon().running
      modifies this`awaited, this`errors, this`trace, sink
      modifies steering`messages, steering`enqueued, steering`mode
      modifies followUps`messages, followUps`enqueued, followUps`mode
      ensures Valid() && executed == Executed(w, k, call)
      ensures Mon() == old(Mon()) && Lasting(trace) == Lasting(old(trace))
      ensures trace == old(trace) + UpdatesBy(w, k, call, p)
      ensures Reports(r)
    {
      hide Valid, Run, Fold, Lasting, MayStart, NextTalking, Reduce, ToolCalls, Prepare;
      r := Normal;
      var execution := p.tool.execute(k, call.id, p.args);
      for i := 0 to |execution.updates|
        invariant Valid() && Reports(r) && Mon() == old(Mon()) && Lasting(trace) == Lasting(old(trace))
        invariant trace == old(trace) + UpdatesBy(w, k, call, p)[..i]
      {
        var emitted := Emit(ToolUpdate(call.id, call.name, call.arguments, execution.updates[i]));
        r := if r.Normal? then emitted else r;
      }
      executed := match execution.outcome
        case Returned(output) => Outcome(output, false)
        case Threw(message) => ErrorOutcome(message);
    }

    /** One call in sequential mode, from its start to its result. */
    method RunToolCall(w: World, k: nat, call: ToolCall) returns (r: Awaited, result: Message)
      requires errors == []
      requires Valid()
      requires Mon().Tooling? && Mon().bracket.Closed? && Mon().due.None? && call.id in Mon().running
      modifies this`awaited, this`errors, this`trace, sink
      modifies steering`messages, steering`enqueued, steering`mode
      modifies followUps`messages, followUps`enqueued, followUps`mode
      ensures Valid()
      ensures r.Normal? ==> result == ResultMessage(call, OutcomeOf(w, k, call))
      ensures r.Normal? ==>
                var m := old(Mon());
                Mon() == m.(ended := m.ended + [result], running := m.running - multiset{call.id},
                            results := m.results + [result])
      ensures r.Normal? ==>
                Lasting(trace) == Lasting(old(trace)) + OutcomeEvents(Task(call, [], OutcomeOf(w, k, call)))
      ensures r.Normal? ==>
                trace == old(trace)
                         + (if Prepare(w, k, call).Prepared? then UpdatesBy(w, k, call, Prepare(w, k, call)) else [])
                         + OutcomeEvents(Task(call, [], OutcomeOf(w, k, call)))
      ensures r.Thrown? ==> Broken(old(trace))
      ensures Reports(r)
    {
      hide Valid, Run, Fold, Lasting, MayStart, Reduce, ToolCalls, Prepare;
      result := *;
      var preparation := Prepare(w, k, call);
      if preparation.Immediate? {
        r, result := EmitToolCallOutcome(call, preparation.outcome);
      } else {
        var executed :- ExecutePreparedToolCall(w, k, call, preparation);
        if w.afterToolCall.Some? {
          :- CallOut();
        }
        r, result := EmitToolCallOutcome(call, FinalizeExecutedToolCall(w, k, call, preparation, executed));
      }
    }

    /** One round of the sequential loop: announce, prepare, execute, finalize call k. */
    method SequentialToolCall(w: World, response: AssistantMessage, k: nat,
                              ghost ended: seq<Message>, ghost results: seq<Message>)
      returns (r: Awaited, result: Message)
      requires errors == []
      requires Valid() && !Failed(response) && k < |ToolCalls(response)|
      requires k == 0 ==> results == []
      requires Mon() == PhaseMonitor(ended, response, k, multiset{}, results)
      modifies this`awaited, this`errors, this`trace, sink
      modifies steering`messages, steering`enqueued, steering`mode
      modifies followUps`messages, followUps`enqueued, followUps`mode
      ensures Valid()
      ensures r.Normal? ==> result == ResultAt(w, ToolCalls(response), k)
      ensures r.Normal? ==> Mon() == PhaseMonitor(ended, response, k + 1, multiset{}, results + [result])
      ensures r.Normal? ==>
                Lasting(trace) ==
                Lasting(old(trace)) + [StartOf(ToolCalls(response)[k])] + DeliveryAt(w, ToolCalls(response), k)
      ensures r.Normal? ==>
                trace == old(trace) + [StartOf(ToolCalls(response)[k])] + StreamedBy(w, ToolCalls(response), k)
                         + DeliveryAt(w, ToolCalls(response), k)
      ensures r.Thrown? ==> Broken(old(trace))
      ensures Reports(r)
    {
      hide Valid, Run, Lasting, OutcomeOf, ToolCalls;
      result := *;
      :- AnnounceToolCall(response, k, ended, multiset{}, results);
      r, result := RunToolCall(w, k, ToolCalls(response)[k]);
      if r.Normal? {
        StartedAnswered(ended, response, k, multiset{}, results, result);
      }
    }

    /** executeToolCallsSequential. */
    method ExecuteToolCallsSequential(w: World, response: AssistantMessage)
      returns (r: Awaited, results: seq<Message>)
      requires errors == []
      requires Valid() && !Failed(response) && ToolCalls(response) != []
      requires Mon().Talking? && Mon() == Talking(Mon().ended, Closed, Some(response))
      modifies this`awaited, this`errors, this`trace, sink
      modifies steering`messages, steering`enqueued, steering`mode
      modifies followUps`messages, followUps`enqueued, followUps`mode
      ensures Valid()
      ensures r.Normal? ==> results == Results(w, ToolCalls(response), SourceOrder(|ToolCalls(response)|))
      ensures r.Normal? ==>
                Mon() == PhaseMonitor(old(Mon()).ended, response, |ToolCalls(response)|, multiset{}, results)
      ensures r.Normal? ==>
                Lasting(trace) ==
                Lasting(old(trace)) + SequentialTrace(w, ToolCalls(response), |ToolCalls(response)|)
      ensures r.Normal? ==>
                trace == old(trace) + SequentialEvents(w, ToolCalls(response), |ToolCalls(response)|)
      ensures r.Thrown? ==> Broken(old(trace))
      ensures Reports(r)
    {
      hide Valid, Mon, Lasting, ToolCalls, ResultAt, DeliveryAt, StreamedBy, SequentialEvents;
      SequentialNone(w, ToolCalls(response));
      var toolCalls := ToolCalls(response);
      ghost var ended := Mon().ended;
      r, results := Normal, [];
      for k := 0 to |toolCalls|
        invariant Valid() && errors == [] && |results| == k && r.Normal?
        invariant trace == old(trace) + SequentialEvents(w, toolCalls, k)
        invariant forall i :: 0 <= i < k ==> results[i] == ResultAt(w, toolCalls, i)
        invariant Mon() == PhaseMonitor(ended, response, k, multiset{}, results)
        invariant Lasting(trace) == Lasting(old(trace)) + SequentialTrace(w, toolCalls, k)
      {
        SequentialNext(w, toolCalls, k + 1);
        var result :- SequentialToolCall(w, response, k, ended, results);
        results := results + [result];
      }
    }

    /** The preparation pass of executeToolCallsParallel: calls are announced and prepared in
        source order; immediate outcomes are delivered at once, the others wait to run. */
    method PrepareToolCalls(w: World, response: AssistantMessage)
      returns (r: Awaited, results: seq<Message>, runnableCalls: seq<Task>)
      requires errors == []
      requires Valid() && mode == Parallel && !Failed(response) && ToolCalls(response) != []
      requires Mon().Talking? && Mon() == Talking(Mon().ended, Closed, Some(response))
      modifies this`awaited, this`errors, this`trace, sink
      modifies steering`messages, steering`enqueued, steering`mode
      modifies followUps`messages, followUps`enqueued, followUps`mode
      ensures Valid()
      ensures r.Normal? ==>
                results == Results(w, ToolCalls(response), Pick(w, ToolCalls(response), |ToolCalls(response)|, true))
      ensures r.Normal? ==>
                runnableCalls
                == TasksAt(w, ToolCalls(response), Pick(w, ToolCalls(response), |ToolCalls(response)|, false))
      ensures r.Normal? ==>
                Mon() == PhaseMonitor(old(Mon()).ended, response, |ToolCalls(response)|,
                                      IdsFrom(runnableCalls, 0), results)
      ensures r.Normal? ==>
                Lasting(trace) ==
                Lasting(old(trace)) + PreparationTrace(w, ToolCalls(response), |ToolCalls(response)|)
      ensures r.Normal? ==>
                trace == old(trace) + PreparationTrace(w, ToolCalls(response), |ToolCalls(response)|)
      ensures r.Thrown? ==> Broken(old(trace))
      ensures Reports(r)
    {
      hide Valid, Mon, Lasting, ToolCalls, ResultAt, DeliveryAt, TaskAt, IsImmediate, IdsFrom, Results, TasksAt, Pick;
      hide PreparationTrace, PhaseMonitor;
      var toolCalls := ToolCalls(response);
      ghost var ended := Mon().ended;
      PhaseStarts(ended, response);
      r, results, runnableCalls := Normal, [], [];
      ghost var lasting := Lasting(trace);
      NoTasks();
      PrepareNone(w, toolCalls);
      for k := 0 to |toolCalls|
        invariant Valid() && errors == [] && r.Normal?
        invariant trace == old(trace) + PreparationTrace(w, toolCalls, k)
        invariant results == Results(w, toolCalls, Pick(w, toolCalls, k, true))
        invariant runnableCalls == TasksAt(w, toolCalls, Pick(w, toolCalls, k, false))
        invariant Mon() == PhaseMonitor(ended, response, k, IdsFrom(runnableCalls, 0), results)
        invariant Lasting(trace) == lasting + PreparationTrace(w, toolCalls, k)
      {
        PrepareNext(w, toolCalls, k, lasting);
        TraceGrows(w, toolCalls, k, old(trace));
        results, runnableCalls :- PrepareToolCall(w, response, k, ended, results, runnableCalls);
      }
    }

    /** One round of the preparation pass. */
    method PrepareToolCall(w: World, response: AssistantMessage, k: nat, ghost ended: seq<Message>,
                           results: seq<Message>, runnableCalls: seq<Task>)
      returns (r: Awaited, results': seq<Message>, runnableCalls': seq<Task>)
      requires errors == []
      requires Valid() && mode == Parallel && !Failed(response) && k < |ToolCalls(response)|
      requires k == 0 ==> results == [] && runnableCalls == []
      requires Mon() == PhaseMonitor(ended, response, k, IdsFrom(runnableCalls, 0), results)
      modifies this`awaited, this`errors, this`trace, sink
      modifies steering`messages, steering`enqueued, steering`mode
      modifies followUps`messages, followUps`enqueued, followUps`mode
      ensures Valid()
      ensures r.Normal? ==>
                results' == if IsImmediate(w, ToolCalls(response), k)
                            then results + [ResultAt(w, ToolCalls(response), k)] else results
      ensures r.Normal? ==>
                runnableCalls' == if IsImmediate(w, ToolCalls(response), k) then runnableCalls
                                  else runnableCalls + [TaskAt(w, ToolCalls(response), k)]
      ensures r.Normal? ==> Mon() == PhaseMonitor(ended, response, k + 1, IdsFrom(runnableCalls', 0), results')
      ensures r.Normal? ==>
                Lasting(trace) == Lasting(old(trace)) + [StartOf(ToolCalls(response)[k])] +
                  if IsImmediate(w, ToolCalls(response), k) then DeliveryAt(w, ToolCalls(response), k) else []
      ensures r.Normal? ==>
                trace == old(trace) + [StartOf(ToolCalls(response)[k])] +
                  if IsImmediate(w, ToolCalls(response), k) then DeliveryAt(w, ToolCalls(response), k) else []
      ensures r.Thrown? ==> Broken(old(trace))
      ensures Reports(r)
    {
      hide Valid, Mon, Lasting, ToolCalls, IdsFrom, Prepare, ResultAt, TaskAt, DeliveryAt, StartedMonitor, PhaseMonitor;
      var toolCalls := ToolCalls(response);
      NoTasks();
      r, results', runnableCalls' := Normal, results, runnableCalls;
      :- AnnounceToolCall(response, k, ended, IdsFrom(runnableCalls, 0), results);
      var preparation := Prepare(w, k, toolCalls[k]);
      if preparation.Immediate? {
        var result :- DeliverImmediate(w, response, k, preparation, ended, IdsFrom(runnableCalls, 0), results);
        results' := results + [result];
      } else {
        runnableCalls' := runnableCalls + [TaskAt(w, toolCalls, k)];
        IdsFromExtend(runnableCalls, TaskAt(w, toolCalls, k), 0);
        TaskCall(w, toolCalls, k);
        StartedWaits(ended, response, k, IdsFrom(runnableCalls, 0), results);
      }
    }

    /** tool_execution_start of call k. */
    method AnnounceToolCall(response: AssistantMessage, k: nat, ghost ended: seq<Message>,
                            ghost running: multiset<string>, ghost results: seq<Message>)
      returns (r: Awaited)
      requires errors == []
      requires Valid() && !Failed(response) && k < |ToolCalls(response)|
      requires mode == Sequential ==> running == multiset{}
      requires k == 0 ==> running == multiset{} && results == []
      requires Mon() == PhaseMonitor(ended, response, k, running, results)
      modifies this`awaited, this`errors, this`trace, sink
      modifies steering`messages, steering`enqueued, steering`mode
      modifies followUps`messages, followUps`enqueued, followUps`mode
      ensures Valid() && trace == old(trace) + [StartOf(ToolCalls(response)[k])]
      ensures Mon() == StartedMonitor(ended, response, k, running, results)
      ensures Lasting(trace) == Lasting(old(trace)) + [StartOf(ToolCalls(response)[k])]
      ensures r.Thrown? ==> Broken(old(trace))
      ensures Reports(r)
    {
      hide Valid, Run, Lasting, Next, ToolCalls, PhaseMonitor;
      StartCall(mode, ended, response, k, running, results);
      r := Emit(StartOf(ToolCalls(response)[k]));
    }

    /** The immediate outcome of a call that does not execute. */
    method DeliverImmediate(w: World, response: AssistantMessage, k: nat, preparation: Preparation,
                            ghost ended: seq<Message>, ghost running: multiset<string>, ghost results: seq<Message>)
      returns (r: Awaited, result: Message)
      requires errors == []
      requires Valid() && k < |ToolCalls(response)|
      requires preparation == Prepare(w, k, ToolCalls(response)[k]) && preparation.Immediate?
      requires Mon() == StartedMonitor(ended, response, k, running, results)
      modifies this`awaited, this`errors, this`trace, sink
      modifies steering`messages, steering`enqueued, steering`mode
      modifies followUps`messages, followUps`enqueued, followUps`mode
      ensures Valid()
      ensures r.Normal? ==> result == ResultAt(w, ToolCalls(response), k)
      ensures r.Normal? ==> Mon() == PhaseMonitor(ended, response, k + 1, running, results + [result])
      ensures r.Normal? ==> Lasting(trace) == Lasting(old(trace)) + DeliveryAt(w, ToolCalls(response), k)
      ensures r.Normal? ==> trace == old(trace) + DeliveryAt(w, ToolCalls(response), k)
      ensures r.Thrown? ==> Broken(old(trace))
      ensures Reports(r)
    {
      hide Valid, Run, Lasting, ToolCalls, Prepare, ResultAt, DeliveryAt;
      ImmediateDelivery(w, ToolCalls(response), k);
      r, result := EmitToolCallOutcome(ToolCalls(response)[k], preparation.outcome);
      StartedAnswered(ended, response, k, running, results, result);
    }

    /** The concurrent part of executeToolCallsParallel under an arbitrary scheduler: any
        enabled step may come next, until the last call is finalized. An error thrown by the
        listeners of a call's updates surfaces when the loop awaits that call. */
    method RunConcurrently(w: World, response: AssistantMessage, tasks: seq<Task>,
                           ghost ended: seq<Message>, results: seq<Message>)
      returns (r: Awaited, results': seq<Message>, ghost schedule: seq<Choice>)
      requires errors == []
      requires Valid() && ToolCalls(response) != []
      requires Mon() == PhaseMonitor(ended, response, |ToolCalls(response)|, IdsFrom(tasks, 0), results)
      modifies this`awaited, this`errors, this`trace, sink
      modifies steering`messages, steering`enqueued, steering`mode
      modifies followUps`messages, followUps`enqueued, followUps`mode
      ensures Valid()
      ensures r.Normal? ==> results' == results + TaskResults(tasks, |tasks|)
      ensures r.Normal? ==> Mon() == PhaseMonitor(ended, response, |ToolCalls(response)|, multiset{}, results')
      ensures r.Normal? ==> Lasting(trace) == Lasting(old(trace)) + Deliveries(tasks, |tasks|)
      ensures r.Normal? ==> Done(tasks, Execute(tasks, schedule))
      ensures trace == old(trace) + EventsOf(Execute(tasks, schedule).events)
      ensures r.Thrown? ==> Broken(old(trace))
      ensures Reports(r)
    {
      hide Valid, Run, Lasting, ToolCalls, Inv, ScheduleMonitor, Enabled, Step, Emitted, IdsFrom, EventsOf, Execute;
      hide PhaseMonitor, Upcoming, Unreported, Held;
      var s := Init(tasks);
      var listeners: seq<Awaited> := seq(|tasks|, i => Normal);
      r, results', schedule := Normal, results, [];
      NoSteps(tasks);
      InitInv(tasks);
      NothingHeld(tasks);
      ScheduleStarts(ended, response, results, tasks);
      while s.current < |tasks|
        invariant Valid() && Inv(tasks, s) && s.current <= |tasks| && r.Normal?
        invariant Unreported(s, listeners, errors) && |listeners| == |tasks|
        invariant Mon() == ScheduleMonitor(ended, response, results, tasks, s)
        invariant Lasting(trace) == Lasting(old(trace)) + Lasting(EventsOf(s.events))
        invariant s == Execute(tasks, schedule) && trace == old(trace) + EventsOf(s.events)
        decreases WorkLeft(tasks, s)
      {
        ghost var errors0 := errors;
        var choice: Choice := *;
        if !Enabled(tasks, s, choice) {
          choice := SomeChoice(tasks, s);
        }
        ScheduleNotBad(ended, response, results, tasks, s);
        if choice.Loop? && s.stage.Awaiting? {
          HeldIsThrown(s, listeners, errors, s.current);
          :- listeners[s.current];
          if w.afterToolCall.Some? {
            :- CallOut();
          }
        }
        NextStep(tasks, schedule, choice);
        schedule := schedule + [choice];
        ghost var before := s;
        var emitted;
        emitted, s := TakeStep(response, tasks, ended, results, s, choice);
        if choice.Loop? {
          ScheduleNotBad(ended, response, results, tasks, s);
          :- emitted;
        }
        StepHolds(tasks, before, choice, listeners, errors0, emitted);
        listeners := Held(listeners, choice, emitted);
      }
      results' := results + s.results;
      AllReported(tasks, s, listeners, errors);
      ScheduleEnds(ended, response, results, tasks, s);
    }

    /** One step of the schedule. */
    method TakeStep(response: AssistantMessage, tasks: seq<Task>, ghost ended: seq<Message>, ghost first: seq<Message>,
                    s: Sched, choice: Choice)
      returns (r: Awaited, s': Sched)
      requires Valid() && Inv(tasks, s) && Enabled(tasks, s, choice)
      requires Mon() == ScheduleMonitor(ended, response, first, tasks, s)
      modifies this`awaited, this`errors, this`trace, sink
      modifies steering`messages, steering`enqueued, steering`mode
      modifies followUps`messages, followUps`enqueued, followUps`mode
      ensures Valid() && Inv(tasks, s') && s' == Step(tasks, s, choice) && s'.current <= |tasks|
      ensures Mon() == ScheduleMonitor(ended, response, first, tasks, s')
      ensures WorkLeft(tasks, s') < WorkLeft(tasks, s)
      ensures exists added ::
                && Lasting(trace) == Lasting(old(trace)) + added
                && Lasting(EventsOf(s'.events)) == Lasting(EventsOf(s.events)) + added
      ensures trace == old(trace) + StepEvents(tasks, s, choice)
      ensures errors == Raised(old(errors), r)
    {
      hide Valid, Run, Lasting, ToolCalls, Inv, ScheduleMonitor, Enabled, Step, Emitted, Next, EventsOf, WorkLeft;
      StepKeeps(mode, ended, response, first, tasks, s, choice);
      s' := Step(tasks, s, choice);
      var e := Emitted(tasks, s, choice);
      if e.Some? {
        EmittedLegal(tasks, s, choice);
        r := Emit(e.value);
      } else {
        r := Normal;
        assert Lasting(trace) == Lasting(old(trace)) + [];
        assert Lasting(EventsOf(s'.events)) == Lasting(EventsOf(s.events)) + [];
      }
    }

    /** executeToolCalls: in either mode, one result per call, in the mode's delivery order, and
        nothing emitted but the events of the phase. */
    method ExecuteToolCalls(w: World, response: AssistantMessage)
      returns (r: Awaited, results: seq<Message>, ghost schedule: seq<Choice>)
      requires errors == []
      requires Valid() && !Failed(response) && ToolCalls(response) != []
      requires Mon().Talking? && Mon() == Talking(Mon().ended, Closed, Some(response))
      modifies this`awaited, this`errors, this`trace, sink
      modifies steering`messages, steering`enqueued, steering`mode
      modifies followUps`messages, followUps`enqueued, followUps`mode
      ensures Valid()
      ensures r.Normal? ==> results == PhaseResults(mode, w, ToolCalls(response))
      ensures r.Normal? ==>
                Mon() == PhaseMonitor(old(Mon()).ended, response, |ToolCalls(response)|, multiset{}, results)
      ensures r.Normal? ==> Lasting(trace) == Lasting(old(trace)) + PhaseTrace(mode, w, ToolCalls(response))
      ensures old(trace) <= trace
      ensures r.Normal? ==> PhaseEvents(mode, w, ToolCalls(response), trace[|old(trace)|..], schedule)
      ensures r.Thrown? ==> Broken(old(trace))
      ensures Reports(r)
    {
      hide Valid, Mon, Lasting, ToolCalls, Results, TasksAt, Pick, PhaseMonitor, PreparationTrace, SequentialTrace;
      hide Deliveries, EventsOf, Execute, SequentialEvents;
      results, schedule := [], [];
      if mode == Sequential {
        r, results := ExecuteToolCallsSequential(w, response);
      } else {
        ghost var ended := Mon().ended;
        var runnableCalls;
        results, runnableCalls :- PrepareToolCalls(w, response);
        r, results, schedule := RunConcurrently(w, response, runnableCalls, ended, results);
        ParallelResults(w, ToolCalls(response));
      }
    }

    // -------------------------------------------------------------- the run

    ghost function Base(): seq<Message> {
      view0.messages + prompts
    }

    /** The invariant of a run between its steps, pending being drained and not yet injected. */
    ghost predicate Synced(pending: seq<Message>)
      reads this, sink, steering, followUps
    {
      && Valid()
      && context == view0.messages + newMessages
      && WellOrdered(Base(), log)
      && newMessages + pending == prompts + MessagesOf(log)
      && steering.taken == steered0 + SteeringOf(log)
      && followUps.taken == followed0 + FollowUpsOf(log)
      && (log != [] ==> !skipInitialSteeringPoll)
      && BatchesOf(prompts, log, batches) && OnTheWay(host, batches, trace, pending)
      && (log == [] ==> trace == After(batches[0]))
    }

    /** How many messages waited when the run began or were queued since. */
    ghost function Queued(): int
      reads steering, followUps
    {
      |steering.enqueued| - |steered0| + |followUps.enqueued| - |followed0|
    }

    /** The run has thrown, anywhere: what it had emitted is grammatical, what it had drained
        is in its log, and of the planned messages at most the end of the newest batch is
        undelivered, which is where delivery was interrupted. */
    ghost predicate Crashed()
      reads this, sink, steering, followUps
    {
      && Valid() && Mon() != Bad
      && WellOrdered(Base(), log)
      && steering.taken == steered0 + SteeringOf(log)
      && followUps.taken == followed0 + FollowUpsOf(log)
      && CutShort(prompts, log, EndedOf(Mon()))
      && BatchesOf(prompts, log, batches) && Halted(host, prompts, log, batches, trace, EndedOf(Mon()))
      && (log == [] ==> trace <= After(batches[0]) && FirstThrow(host, trace))
    }

    /** Where the monitor stands when a turn opens. */
    ghost predicate AtTurnStart(firstTurn: bool)
      reads this`trace, this`newMessages
    {
      if firstTurn then Mon().Talking? && Mon() == Talking(newMessages, Closed, Mon().last)
      else Mon().Gap? && Mon() == Gap(newMessages, Mon().more)
    }

    /** The latest poll gave pending, which is not injected yet. */
    ghost predicate JustPolled(pending: seq<Message>)
      reads this`log
    {
      log != [] && IsPoll(Last(log)) && Last(log).messages == pending
    }

    /** Puts a poll into the log, and what it gave on its way. */
    ghost method LogPoll(e: Entry)
      requires Valid() && IsPoll(e) && MayFollow(Base(), log, e) && WellOrdered(Base(), log) && !skipInitialSteeringPoll
      requires context == view0.messages + newMessages && newMessages == prompts + MessagesOf(log)
      requires steering.taken == steered0 + SteeringOf(log) + if e.Polled? then e.messages else []
      requires followUps.taken == followed0 + FollowUpsOf(log) + if e.PolledFollowUps? then e.messages else []
      requires BatchesOf(prompts, log, batches) && AllThrough(host, batches, trace)
      requires log == [] ==> trace == After(batches[0])
      modifies this`log, this`batches
      ensures Synced(e.messages) && log == old(log) + [e]
      ensures e.messages != [] ==> batches != [] && Last(batches).opening == OpeningOf(old(log) == [])
    {
      hide Valid, WellOrdered, MessagesOf, SteeringOf, FollowUpsOf, BatchesOf, AllThrough, MayFollow, After;
      Extend(Base(), log, e);
      BatchAdded(prompts, log, batches, e, trace, OpeningOf(log == []));
      assert prompts + (MessagesOf(log) + e.messages) == prompts + MessagesOf(log) + e.messages;
      assert steered0 + (SteeringOf(log) + if e.Polled? then e.messages else []) == steering.taken;
      assert followed0 + (FollowUpsOf(log) + if e.PolledFollowUps? then e.messages else []) == followUps.taken;
      batches := WithBatch(batches, e.messages, trace, OpeningOf(log == []));
      log := log + [e];
    }

    /** getSteeringMessages: drains the steering queue, except on a skipped first poll. */
    method GetSteeringMessages() returns (pending: seq<Message>)
      requires Synced([])
      requires log == [] || (Last(log).Answered? && !Failed(Last(log).response))
      modifies this`log, this`batches, this`skipInitialSteeringPoll, steering
      modifies followUps`messages, followUps`enqueued, followUps`mode
      ensures Synced(pending)
      ensures |log| == |old(log)| + 1 && log[..|old(log)|] == old(log)
      ensures Last(log).Polled? && Last(log).messages == pending
      ensures pending == if old(skipInitialSteeringPoll) then []
                         else Drained(old(steering.mode), old(steering.messages))
      ensures !old(skipInitialSteeringPoll) && old(steering.mode) == All ==> pending == old(steering.messages)
      ensures !old(skipInitialSteeringPoll) && old(steering.mode) == OneAtATime && old(steering.messages) != [] ==>
                pending == [old(steering.messages)[0]]
      ensures Last(log).waiting == old(steering.messages) && Last(log).mode == old(steering.mode)
      ensures !skipInitialSteeringPoll
      ensures pending != [] ==> batches != [] && Last(batches).opening == OpeningOf(old(log) == [])
    {
      hide Run, Fold, WellOrdered, MessagesOf, SteeringOf, FollowUpsOf, Reduce, Agreement, Recorded;
      hide BatchesOf, AllThrough;
      var mode := steering.mode;
      ghost var waiting := steering.messages;
      assert newMessages + [] == newMessages;
      if skipInitialSteeringPoll {
        skipInitialSteeringPoll := false;
        pending := [];
      } else {
        pending := steering.Drain();
      }
      LogPoll(Polled(mode, waiting, pending));
      Outside();
    }

    /** getFollowUpMessages. */
    method GetFollowUpMessages() returns (pending: seq<Message>)
      requires Synced([])
      requires MayFollow(Base(), log, PolledFollowUps(OneAtATime, [], []))
      modifies this`log, this`batches, followUps
      modifies steering`messages, steering`enqueued, steering`mode
      ensures Synced(pending)
      ensures |log| == |old(log)| + 1 && log[..|old(log)|] == old(log)
      ensures Last(log).PolledFollowUps?
      ensures Last(log).messages == pending == Drained(old(followUps.mode), old(followUps.messages))
      ensures old(followUps.mode) == All ==> pending == old(followUps.messages)
      ensures old(followUps.mode) == OneAtATime && old(followUps.messages) != [] ==>
                pending == [old(followUps.messages)[0]]
      ensures Last(log).waiting == old(followUps.messages) && Last(log).mode == old(followUps.mode)
      ensures AnswersOf(log) == AnswersOf(old(log))
      ensures pending != [] ==> batches != [] && Last(batches).opening == [TurnStart]
    {
      hide Run, Fold, WellOrdered, MessagesOf, SteeringOf, FollowUpsOf, Reduce, HasCalls, AnswersOf, Agreement;
      hide Recorded, BatchesOf, AllThrough;
      var mode := followUps.mode;
      ghost var waiting := followUps.messages;
      assert newMessages + [] == newMessages;
      pending := followUps.Drain();
      AnswersNext(log, PolledFollowUps(mode, waiting, pending));
      LogPoll(PolledFollowUps(mode, waiting, pending));
      Outside();
    }

    /** The invariant of a run while the pending messages are injected: the first n are. */
    ghost predicate Injecting(pending: seq<Message>, n: nat)
      reads this, sink, steering, followUps
    {
      && Valid() && n <= |pending|
      && context == view0.messages + newMessages
      && WellOrdered(Base(), log) && log != [] && !skipInitialSteeringPoll
      && prompts + MessagesOf(log) == newMessages + pending[n..]
      && steering.taken == steered0 + SteeringOf(log) && followUps.taken == followed0 + FollowUpsOf(log)
      && JustPolled(pending)
      && BatchesOf(prompts, log, batches)
      && if pending == [] then AllThrough(host, batches, trace)
         else
           && batches != [] && AllThrough(host, batches[..|batches| - 1], Last(batches).before)
           && Last(batches).messages == pending
           && trace == Last(batches).before + Last(batches).opening + Brackets(pending[..n])
    }

    /** A listener has thrown between two messages of the newest batch, or within one. */
    lemma InjectionHalts(pending: seq<Message>, n: nat, half: bool)
      requires Valid() && Mon() != Bad && WellOrdered(Base(), log)
      requires steering.taken == steered0 + SteeringOf(log) && followUps.taken == followed0 + FollowUpsOf(log)
      requires JustPolled(pending) && pending != [] && n <= |pending| && (half ==> n < |pending|)
      requires |EndedOf(Mon())| >= n && EndedOf(Mon()) + pending[n..] == prompts + MessagesOf(log)
      requires EndedOf(Mon())[|EndedOf(Mon())| - n..] == pending[..n]
      requires BatchesOf(prompts, log, batches) && FirstThrow(host, trace)
      requires batches != [] && AllThrough(host, batches[..|batches| - 1], Last(batches).before)
      requires Last(batches).messages == pending && |trace| > |Last(batches).before|
      requires trace == Last(batches).before + Last(batches).opening + Brackets(pending[..n])
                        + (if half then [MessageStart(pending[n])] else [])
      ensures Crashed()
    {
      hide Valid, WellOrdered, SteeringOf, FollowUpsOf, MessagesOf, Run, EndedOf, BatchesOf, FirstThrow, AllThrough;
      hide Brackets, Halted, CutShort;
      var delivered := EndedOf(Mon());
      var front := delivered[..|delivered| - n];
      assert front + pending[..n] == delivered;
      assert pending[..n] + pending[n..] == pending;
      assert front + pending == prompts + MessagesOf(log);
      HaltsOnPath(host, prompts, log, batches, trace, front, n, half);
      BatchCutShort(pending, front, n);
    }

    lemma BatchCutShort(pending: seq<Message>, front: seq<Message>, n: nat)
      requires JustPolled(pending) && n <= |pending| && front + pending == prompts + MessagesOf(log)
      ensures CutShort(prompts, log, front + pending[..n])
    {
      hide MessagesOf;
      MessagesUpTo(log, |log| - 1);
      assert log[..|log| - 1 + 1] == log;
      var init := log[..|log| - 1];
      assert prompts + (MessagesOf(init) + pending) == prompts + MessagesOf(init) + pending;
      SameFront(front, prompts + MessagesOf(init), pending);
      assert front + pending[..n] <= front + pending;
    }

    /** Injects the pending messages before the next response. */
    method Inject(pendingMessages: seq<Message>) returns (r: Awaited)
      requires errors == []
      requires Injecting(pendingMessages, 0)
      requires Mon().Talking? && Mon() == Talking(newMessages, Closed, Mon().last)
      modifies this`awaited, this`errors, this`trace, this`context, this`newMessages, sink
      modifies steering`messages, steering`enqueued, steering`mode
      modifies followUps`messages, followUps`enqueued, followUps`mode
      ensures r.Normal? ==> Synced([]) && newMessages == old(newMessages) + pendingMessages
      ensures r.Normal? ==> Mon().Talking? && Mon() == Talking(newMessages, Closed, Mon().last)
      ensures r.Thrown? ==> Crashed()
      ensures Reports(r)
    {
      hide Injecting, Synced, Crashed, Run;
      r := Normal;
      for i := 0 to |pendingMessages|
        invariant Injecting(pendingMessages, i) && errors == [] && r.Normal?
        invariant newMessages == old(newMessages) + pendingMessages[..i]
        invariant Mon().Talking? && Mon() == Talking(newMessages, Closed, Mon().last)
      {
        assert newMessages[|newMessages| - i..] == pendingMessages[..i];
        :- InjectMessage(pendingMessages, i);
      }
      Injected(pendingMessages);
      assert pendingMessages[..|pendingMessages|] == pendingMessages;
    }

    /** One message of the batch. */
    method InjectMessage(pendingMessages: seq<Message>, i: nat) returns (r: Awaited)
      requires errors == []
      requires i < |pendingMessages| && Injecting(pendingMessages, i)
      requires |newMessages| >= i && newMessages[|newMessages| - i..] == pendingMessages[..i]
      requires Mon().Talking? && Mon() == Talking(newMessages, Closed, Mon().last)
      modifies this`awaited, this`errors, this`trace, this`context, this`newMessages, sink
      modifies steering`messages, steering`enqueued, steering`mode
      modifies followUps`messages, followUps`enqueued, followUps`mode
      ensures r.Normal? ==> Injecting(pendingMessages, i + 1) && newMessages == old(newMessages) + [pendingMessages[i]]
      ensures r.Normal? ==> Mon().Talking? && Mon() == Talking(newMessages, Closed, Mon().last)
      ensures r.Thrown? ==> Crashed()
      ensures Reports(r)
    {
      hide Run, Fold, WellOrdered, MessagesOf, SteeringOf, FollowUpsOf, Valid, CutShort, Crashed, BatchesOf, AllThrough;
      hide FirstThrow, Brackets, After, EndedOf;
      var message := pendingMessages[i];
      BracketsAt(pendingMessages, i);
      assert pendingMessages[i..] == [message] + pendingMessages[i + 1..];
      assert pendingMessages[..i + 1] == pendingMessages[..i] + [message];
      assert newMessages + [message] + pendingMessages[i + 1..] == newMessages + pendingMessages[i..];
      var ended;
      r, ended := EmitMessage(message);
      if r.Thrown? {
        if ended {
          InjectionHalts(pendingMessages, i + 1, false);
        } else {
          InjectionHalts(pendingMessages, i, true);
        }
        return;
      }
      context := context + [message];
      newMessages := newMessages + [message];
    }

    lemma Injected(pending: seq<Message>)
      requires Injecting(pending, |pending|) && errors == []
      ensures Synced([])
    {
      hide Run, Fold, WellOrdered, MessagesOf, SteeringOf, FollowUpsOf, Agreement, Recorded, BatchesOf, Brackets;
      NothingThrewIff(host, trace, awaited, errors);
      assert pending[..|pending|] == pending && pending[|pending|..] == [];
      if pending != [] {
        ThroughWhenQuiet(host, batches, trace, awaited);
      }
    }

    /** Sends the context to the model. */
    ghost method Ask()
      requires Synced([]) && log != [] && MayAsk(log)
      modifies this`log
      ensures Synced([]) && log == old(log) + [Asked(context)]
    {
      hide Run, Fold, Valid, WellOrdered, SteeringOf, FollowUpsOf, MessagesOf, MayAsk, BatchesOf, AllThrough;
      assert newMessages + [] == newMessages;
      assert view0.messages + (prompts + MessagesOf(log)) == Base() + MessagesOf(log);
      Extend(Base(), log, Asked(context));
      NoBatch(prompts, log, batches, Asked(context));
      log := log + [Asked(context)];
    }

    /** The invariant of a run between a request and the end of its turn: answer is what the
        turn has added so far. */
    ghost predicate Answering(answer: seq<Message>)
      reads this, sink, steering, followUps
    {
      && Valid() && log != [] && Last(log).Asked? && WellOrdered(Base(), log) && !skipInitialSteeringPoll
      && context == view0.messages + newMessages
      && newMessages == prompts + MessagesOf(log) + answer
      && steering.taken == steered0 + SteeringOf(log) && followUps.taken == followed0 + FollowUpsOf(log)
      && BatchesOf(prompts, log, batches) && AllThrough(host, batches, trace)
    }

    /** Puts the answer of a turn into the log. */
    ghost method LogAnswer(message: AssistantMessage, toolResults: seq<Message>)
      requires Answering([message] + toolResults) && AnswersAll(message, toolResults) && AllResults(toolResults)
      modifies this`log
      ensures Synced([]) && log == old(log) + [Answered(message, toolResults)]
    {
      hide Valid, WellOrdered, SteeringOf, FollowUpsOf, MessagesOf, AnswersAll, AllResults, BatchesOf, AllThrough;
      hide After;
      Extend(Base(), log, Answered(message, toolResults));
      NoBatch(prompts, log, batches, Answered(message, toolResults));
      log := log + [Answered(message, toolResults)];
      assert newMessages + [] == prompts + MessagesOf(log);
    }

    /** A throw at the end of a turn. */
    lemma AnswerHalts(answer: seq<Message>)
      requires Answering(answer) && Mon() != Bad && EndedOf(Mon()) == newMessages
      ensures Crashed()
    {
      hide Run, Valid, WellOrdered, SteeringOf, FollowUpsOf, MessagesOf, EndedOf, BatchesOf, AllThrough, Halted, After;
      HaltsBeside(host, prompts, log, batches, trace, newMessages);
    }

    /** Ends a turn whose response and results are in both lists. */
    method FinishTurn(message: AssistantMessage, toolResults: seq<Message>) returns (r: Awaited)
      requires errors == []
      requires Answering([message] + toolResults)
      requires AnswersAll(message, toolResults) && AllResults(toolResults)
      requires Next(mode, Mon(), TurnEnd(message, toolResults)) == Gap(newMessages, toolResults != [])
      modifies this`awaited, this`errors, this`trace, this`log, this`checkpoints, sink
      modifies steering`messages, steering`enqueued, steering`mode
      modifies followUps`messages, followUps`enqueued, followUps`mode
      ensures r.Normal? ==> Synced([]) && log == old(log) + [Answered(message, toolResults)]
      ensures r.Normal? ==> Mon() == Gap(newMessages, toolResults != [])
      ensures r.Thrown? ==> Crashed()
      ensures Reports(r)
      ensures old(log) <= log
    {
      hide Run, Valid, WellOrdered, SteeringOf, FollowUpsOf, MessagesOf, AnswersAll, AllResults, Next;
      hide BatchesOf, AllThrough, FirstThrow, Crashed, Synced;
      var e := TurnEnd(message, toolResults);
      ThroughStays(host, batches, trace, trace + [e]);
      r := EmitBoundary(e);
      if r.Thrown? {
        AnswerHalts([message] + toolResults);
      } else {
        LogAnswer(message, toolResults);
      }
    }

    /** A throw while a response is streamed or its calls run. */
    lemma TurnCutShort(trace0: seq<Event>)
      requires Broken(trace0) && WellOrdered(Base(), log) && log != [] && Last(log).Asked?
      requires steering.taken == steered0 + SteeringOf(log) && followUps.taken == followed0 + FollowUpsOf(log)
      requires prompts + MessagesOf(log) <= EndedOf(Run(mode, trace0))
      requires BatchesOf(prompts, log, batches) && AllThrough(host, batches, trace0)
      ensures Crashed()
    {
      hide Run, Valid, WellOrdered, SteeringOf, FollowUpsOf, MessagesOf, EndedOf, BatchesOf, AllThrough, Halted;
      DeliveredGrows(mode, trace0, trace);
      ThroughStays(host, batches, trace0, trace);
      HaltsBeside(host, prompts, log, batches, trace, EndedOf(Mon()));
    }

    /** The response of a turn, put into both lists. */
    method StreamTurn(stream: ModelStream) returns (r: Awaited, message: AssistantMessage)
      requires errors == []
      requires Synced([]) && log != [] && Last(log).Asked?
      requires Mon().Talking? && Mon() == Talking(newMessages, Closed, Mon().last)
      requires Starts(Live(stream)) <= 1
      modifies this`awaited, this`errors, this`trace, this`context, this`newMessages, sink
      modifies steering`messages, steering`enqueued, steering`mode
      modifies followUps`messages, followUps`enqueued, followUps`mode
      ensures message == stream.result
      ensures r.Normal? ==> Answering([message]) && Mon() == Talking(newMessages, Closed, Some(message))
      ensures r.Thrown? ==> Crashed()
      ensures Reports(r)
    {
      hide Run, Fold, WellOrdered, SteeringOf, FollowUpsOf, MessagesOf, Appended, Live, Starts, StreamTrace, Valid;
      hide Crashed, Broken, BatchesOf, AllThrough, After, FirstThrow, EndedOf;
      StreamingNetsOneAppend(stream);
      assert newMessages + [] == newMessages;
      assert EndedOf(Mon()) == newMessages by { TalkingEnded(); }
      ghost var trace0 := trace;
      r, message := StreamAssistantResponse(stream);
      if r.Thrown? {
        TurnCutShort(trace0);
        return;
      }
      ThroughStays(host, batches, trace0, trace);
      newMessages := newMessages + [message];
    }

    lemma TalkingEnded()
      ensures Mon().Talking? ==> EndedOf(Mon()) == Mon().ended
    {
      hide Run;
    }

    /** The tool calls of a response, their results put into both lists. */
    method AnswerCalls(w: World, message: AssistantMessage) returns (r: Awaited, toolResults: seq<Message>)
      requires errors == []
      requires Answering([message]) && Mon() == Talking(newMessages, Closed, Some(message))
      requires !Failed(message) && ToolCalls(message) != []
      modifies this`awaited, this`errors, this`trace, this`context, this`newMessages, sink
      modifies steering`messages, steering`enqueued, steering`mode
      modifies followUps`messages, followUps`enqueued, followUps`mode
      ensures r.Normal? ==> Answering([message] + toolResults)
      ensures r.Normal? ==> toolResults == PhaseResults(mode, w, ToolCalls(message))
      ensures r.Normal? ==> AnswersAll(message, toolResults) && AllResults(toolResults) && toolResults != []
      ensures r.Normal? ==> Next(mode, Mon(), TurnEnd(message, toolResults)) == Gap(newMessages, true)
      ensures r.Thrown? ==> Crashed()
      ensures Reports(r)
    {
      hide Run, Fold, WellOrdered, SteeringOf, FollowUpsOf, MessagesOf, ToolCalls, Lasting, PhaseResults, PhaseTrace;
      hide Valid, PhaseMonitor, Next, AnswersAll, Crashed, Broken, BatchesOf, AllThrough, FirstThrow, EndedOf;
      hide PhaseEvents;
      assert EndedOf(Mon()) == newMessages by { TalkingEnded(); }
      ghost var trace0 := trace;
      ghost var schedule;
      r, toolResults, schedule := ExecuteToolCalls(w, message);
      if r.Thrown? {
        TurnCutShort(trace0);
        return;
      }
      ThroughStays(host, batches, trace0, trace);
      context := context + toolResults;
      PhaseCloses(mode, newMessages, message, trace, toolResults, w);
      newMessages := newMessages + toolResults;
    }

    /** One response and its tool calls, from the model request to turn_end. */
    method Respond(reply: Reply) returns (r: Awaited, message: AssistantMessage, hasMoreToolCalls: bool)
      requires errors == []
      requires Synced([]) && log != [] && Last(log).Asked?
      requires Mon().Talking? && Mon() == Talking(newMessages, Closed, Mon().last)
      requires Starts(Live(reply.stream)) <= 1
      modifies this`awaited, this`errors, this`trace, this`context, this`newMessages, this`log, this`checkpoints, sink
      modifies steering`messages, steering`enqueued, steering`mode
      modifies followUps`messages, followUps`enqueued, followUps`mode
      ensures message == reply.stream.result
      ensures r.Normal? ==> Synced([]) && |log| == |old(log)| + 1 && log[..|old(log)|] == old(log)
      ensures r.Normal? ==> Last(log) == AnswerTo(mode, reply) && Last(log).Answered? && Last(log).response == message
      ensures r.Normal? ==> Mon() == Gap(newMessages, hasMoreToolCalls)
      ensures r.Normal? ==> hasMoreToolCalls == (!Failed(message) && HasCalls(Last(log)))
      ensures r.Normal? ==>
                (hasMoreToolCalls <==>
                   message.stopReason != Error && message.stopReason != Aborted && HasCallBlock(message.content))
      ensures r.Normal? && hasMoreToolCalls ==> AnswersBlocks(message.content, Last(log).results)
      ensures r.Normal? && !hasMoreToolCalls ==> Last(log).results == []
      ensures r.Thrown? ==> Crashed()
      ensures Reports(r)
      ensures old(log) <= log
    {
      hide Run, ToolCalls, Live, Starts, PhaseResults, Next, AnswersAll, Crashed, Synced, Answering;
      hide HasCallBlock, AnswersBlocks;
      hasMoreToolCalls := false;
      message :- StreamTurn(reply.stream);
      hasMoreToolCalls := !Failed(message) && |ToolCalls(message)| > 0;
      NoCallBlocks(message);
      var toolResults: seq<Message> := [];
      if hasMoreToolCalls {
        toolResults :- AnswerCalls(reply.world, message);
        AllBlocksAnswered(message, toolResults);
      } else {
        NothingToAnswer(mode, newMessages, message);
        assert [message] + toolResults == [message];
      }
      r := FinishTurn(message, toolResults);
    }

    /** turn_start, unless the first turn is already open. */
    method StartTurn(firstTurn: bool, pendingMessages: seq<Message>) returns (r: Awaited)
      requires errors == []
      requires Synced(pendingMessages) && JustPolled(pendingMessages) && MayAsk(log) && AtTurnStart(firstTurn)
      requires pendingMessages != [] ==> batches != [] && Last(batches).opening == OpeningOf(firstTurn)
      modifies this`awaited, this`errors, this`trace, sink
      modifies steering`messages, steering`enqueued, steering`mode
      modifies followUps`messages, followUps`enqueued, followUps`mode
      ensures r.Normal? ==> Injecting(pendingMessages, 0)
      ensures r.Normal? ==> Mon().Talking? && Mon() == Talking(newMessages, Closed, Mon().last)
      ensures r.Thrown? ==> Crashed()
      ensures Reports(r)
    {
      hide Run, Fold, Valid, WellOrdered, SteeringOf, FollowUpsOf, MessagesOf, MayAsk, NextTalking, NextTooling;
      hide AnswersOf, CutShort, BatchesOf, AllThrough, FirstThrow, Crashed;
      r := Normal;
      ghost var trace0 := trace;
      if !firstTurn {
        r := Emit(TurnStart);
      }
      TurnOpened(firstTurn, pendingMessages, trace0);
      if r.Thrown? {
        OpeningHalts(pendingMessages, trace0);
      }
    }

    lemma TurnOpened(firstTurn: bool, pending: seq<Message>, trace0: seq<Event>)
      requires Valid() && context == view0.messages + newMessages && !skipInitialSteeringPoll
      requires WellOrdered(Base(), log) && newMessages + pending == prompts + MessagesOf(log)
      requires steering.taken == steered0 + SteeringOf(log) && followUps.taken == followed0 + FollowUpsOf(log)
      requires BatchesOf(prompts, log, batches) && OnTheWay(host, batches, trace0, pending) && JustPolled(pending)
      requires pending != [] ==> batches != [] && Last(batches).opening == OpeningOf(firstTurn)
      requires trace == trace0 + OpeningOf(firstTurn)
      ensures Injecting(pending, 0)
    {
      hide Valid, WellOrdered, SteeringOf, FollowUpsOf, MessagesOf, BatchesOf, AllThrough;
      assert pending[0..] == pending && pending[..0] == [];
      if pending == [] {
        ThroughStays(host, batches, trace0, trace);
      }
    }

    lemma OpeningHalts(pending: seq<Message>, trace0: seq<Event>)
      requires Injecting(pending, 0) && Mon() != Bad && EndedOf(Mon()) == newMessages
      requires FirstThrow(host, trace) && trace == trace0 + [TurnStart]
      requires pending != [] ==> batches != [] && Last(batches).before == trace0
      ensures Crashed()
    {
      hide Valid, WellOrdered, SteeringOf, FollowUpsOf, MessagesOf, Run, EndedOf, BatchesOf, FirstThrow, AllThrough;
      hide Halted, CutShort;
      assert pending[0..] == pending && pending[..0] == [] && newMessages + [] == newMessages;
      BatchCutShort(pending, newMessages, 0);
      if pending == [] {
        HaltsBeside(host, prompts, log, batches, trace, newMessages);
      } else {
        HaltsOnPath(host, prompts, log, batches, trace, newMessages, 0, false);
      }
    }

    /** The head of a turn: turn_start, the injected messages, the model request. */
    method OpenTurn(firstTurn: bool, pendingMessages: seq<Message>) returns (r: Awaited)
      requires errors == []
      requires Synced(pendingMessages) && JustPolled(pendingMessages) && MayAsk(log)
      requires AtTurnStart(firstTurn)
      requires pendingMessages != [] ==> batches != [] && Last(batches).opening == OpeningOf(firstTurn)
      modifies this`awaited, this`errors, this`trace, this`context, this`newMessages, this`log, sink
      modifies steering`messages, steering`enqueued, steering`mode
      modifies followUps`messages, followUps`enqueued, followUps`mode
      ensures r.Normal? ==> Synced([]) && log == old(log) + [Asked(context)] && AnswersOf(log) == AnswersOf(old(log))
      ensures r.Normal? ==> Mon().Talking? && Mon() == Talking(newMessages, Closed, Mon().last)
      ensures r.Thrown? ==> Crashed()
      ensures Reports(r)
      ensures old(log) <= log
    {
      hide Injecting, Synced, Crashed, Run, MayAsk, AnswersOf;
      :- StartTurn(firstTurn, pendingMessages);
      :- Inject(pendingMessages);
      AnswersNext(log, Asked(context));
      Ask();
      r := Normal;
    }

    /** The invariant of the inner loop. */
    ghost predicate AtTurn(firstTurn: bool, hasMoreToolCalls: bool, pending: seq<Message>,
                           replies: seq<Reply>, used: nat)
      reads this, sink, steering, followUps
    {
      && Synced(pending) && JustPolled(pending)
      && AtTurnStart(firstTurn)
      && (pending != [] ==> batches != [] && Last(batches).opening == OpeningOf(firstTurn))
      && (hasMoreToolCalls || pending != [] ==> MayAsk(log))
      && (!firstTurn && !hasMoreToolCalls && pending == [] ==>
            MayFollow(Base(), log, PolledFollowUps(OneAtATime, [], [])) && !Mon().more)
      && Consumed(mode, log, replies, used)
    }

    /** One turn of the inner loop, given the model's reply. It ends the run on a failed
        response, and polls the steering queue otherwise. */
    method CloseTurn(replies: seq<Reply>, used: nat)
      returns (r: Awaited, ended: bool, hasMoreToolCalls: bool, pendingMessages: seq<Message>)
      requires errors == []
      requires Synced([]) && log != [] && Last(log).Asked?
      requires Mon().Talking? && Mon() == Talking(newMessages, Closed, Mon().last)
      requires used < |replies| && Starts(Live(replies[used].stream)) <= 1
      requires Consumed(mode, log, replies, used)
      modifies this`awaited, this`errors, this`trace, this`context, this`newMessages, this`log, this`batches
      modifies this`checkpoints, this`skipInitialSteeringPoll
      modifies sink, steering, followUps`messages, followUps`enqueued, followUps`mode
      ensures r.Normal? ==> Consumed(mode, log, replies, used + 1)
      ensures r.Normal? ==>
                var stopReason := replies[used].stream.result.stopReason;
                ended <==> stopReason == Error || stopReason == Aborted
      ensures r.Normal? ==> |log| == |old(log)| + if ended then 1 else 2
      ensures r.Normal? ==> log[..|old(log)| + 1] == old(log) + [AnswerTo(mode, replies[used])]
      ensures r.Normal? && ended ==> Synced([]) && Finished(log) && Mon() == Over(newMessages)
      ensures r.Normal? && !ended ==> AtTurn(false, hasMoreToolCalls, pendingMessages, replies, used + 1)
      ensures r.Thrown? ==> Crashed()
      ensures Reports(r)
      ensures old(log) <= log
    {
      hide Run, Fold, Valid, WellOrdered, SteeringOf, FollowUpsOf, MessagesOf, NextTalking, NextTooling, AnswersOf;
      hide AnswerTo, ToolCalls, Live, Starts, Crashed, Synced;
      ended, hasMoreToolCalls, pendingMessages := false, false, [];
      var message;
      ghost var log0 := log;
      message, hasMoreToolCalls :- Respond(replies[used]);
      AnswersNext(log0, Last(log));
      assert log == log0 + [Last(log)];
      if Failed(message) {
        ended := true;
        r := EndRun();
        return;
      }
      r := Normal;
      ghost var log1 := log;
      pendingMessages := GetSteeringMessages();
      AnswersNext(log1, Last(log));
      assert log == log1 + [Last(log)];
    }

    /** agent_end. */
    method EndRun() returns (r: Awaited)
      requires errors == []
      requires Synced([]) && Mon() == Gap(newMessages, false) && log != [] && Finished(log)
      modifies this`awaited, this`errors, this`trace, this`checkpoints, sink
      modifies steering`messages, steering`enqueued, steering`mode
      modifies followUps`messages, followUps`enqueued, followUps`mode
      ensures Synced([])
      ensures Mon() == Over(newMessages)
      ensures r.Thrown? ==> Crashed()
      ensures Reports(r)
    {
      hide Run, Fold, Valid, WellOrdered, SteeringOf, FollowUpsOf, MessagesOf, NextTalking, NextTooling, Finished;
      hide BatchesOf, AllThrough, FirstThrow, Halted, CutShort;
      ThroughStays(host, batches, trace, trace + [AgentEnd(newMessages)]);
      assert newMessages + [] == newMessages;
      HaltsBeside(host, prompts, log, batches, trace + [AgentEnd(newMessages)], newMessages);
      r := EmitBoundary(AgentEnd(newMessages));
      FinishedCutShort();
    }

    lemma FinishedCutShort()
      requires newMessages + [] == prompts + MessagesOf(log) && Finished(log)
      ensures CutShort(prompts, log, newMessages)
    {
      hide MessagesOf;
      MessagesUpTo(log, |log| - 1);
      assert log[..|log| - 1 + 1] == log;
      assert newMessages + [] == newMessages;
    }

    /** The inner loop of runLoop: turns as long as there are tool results or pending
        messages. It stops with both used up, ends the run on a failed response, or waits at
        a model request. */
    method RunTurns(replies: seq<Reply>, start: nat, first: bool, pending: seq<Message>)
      returns (r: Awaited, outcome: TurnsOutcome, used: nat)
      requires errors == []
      requires AtTurn(first, true, pending, replies, start)
      requires Protocol(replies)
      modifies this`awaited, this`errors, this`trace, this`context, this`newMessages, this`log, this`batches
      modifies this`checkpoints, this`skipInitialSteeringPoll
      modifies sink, steering, followUps`messages, followUps`enqueued, followUps`mode
      ensures log != [] && log[0] == old(log)[0]
      ensures r.Normal? && outcome == Stopped ==> start < used <= |replies| && AtTurn(false, false, [], replies, used)
      ensures r.Normal? && outcome == RunEnded ==>
                && Synced([]) && Finished(log) && Mon() == Over(newMessages) && Consumed(mode, log, replies, used)
      ensures r.Normal? && outcome == Waiting ==>
                && Synced([]) && used == |replies| && log != [] && Last(log).Asked?
                && Consumed(mode, log, replies, used)
                && Mon().Talking? && Mon() == Talking(newMessages, Closed, Mon().last)
      ensures r.Thrown? ==> Crashed()
      ensures Reports(r)
    {
      hide Mon, WellOrdered, SteeringOf, FollowUpsOf, MessagesOf, Next, AnswersOf, AnswerTo, Live, Starts, Synced;
      hide Finished, Crashed;
      r, outcome, used := Normal, Stopped, start;
      var firstTurn := first;
      var pendingMessages := pending;
      var hasMoreToolCalls := true;
      while hasMoreToolCalls || |pendingMessages| > 0
        invariant AtTurn(firstTurn, hasMoreToolCalls, pendingMessages, replies, used)
        invariant log != [] && log[0] == old(log)[0] && errors == [] && r.Normal? && outcome == Stopped
        invariant start <= used && (used == start ==> hasMoreToolCalls) && (used > start ==> !firstTurn)
        decreases |replies| - used
      {
        :- OpenTurn(firstTurn, pendingMessages);
        firstTurn := false;
        if used == |replies| {
          outcome := Waiting;
          return;
        }
        var ended;
        ended, hasMoreToolCalls, pendingMessages :- CloseTurn(replies, used);
        used := used + 1;
        if ended {
          outcome := RunEnded;
          return;
        }
      }
    }

    /** runLoop. The model's replies are taken from a list of any length; when it is used up
        the run waits at its next model request, so every state a run can reach at a request
        is reached here. The run ends with agent_end when a response failed or when a
        response without tool calls finds both queues empty; once there have been more
        replies than replies with tool calls and queued messages, it has ended. */
    method RunLoop(replies: seq<Reply>) returns (r: Awaited, finished: bool, used: nat)
      requires errors == []
      requires Synced([]) && log == []
      requires Mon().Talking? && Mon() == Talking(newMessages, Closed, Mon().last)
      requires Protocol(replies)
      modifies this`awaited, this`errors, this`trace, this`context, this`newMessages, this`log, this`batches
      modifies this`checkpoints, this`skipInitialSteeringPoll
      modifies sink, steering, followUps
      ensures r.Normal? ==> Synced([]) && log != []
      ensures r.Normal? ==> Consumed(mode, log, replies, used)
      ensures r.Normal? && finished ==> Finished(log) && Mon() == Over(newMessages)
      ensures r.Normal? && !finished ==>
                && used == |replies| && Last(log).Asked?
                && Mon().Talking? && Mon() == Talking(newMessages, Closed, Mon().last)
      ensures r.Normal? && |replies| > RepliesWithCalls(replies) + Queued() ==> finished
      ensures r.Normal? ==> log != []
      ensures log != [] ==> FirstPoll(log[0], old(skipInitialSteeringPoll), old(steering.messages))
      ensures r.Thrown? ==> Crashed()
      ensures Reports(r)
    {
      hide Mon, Next, Live, Starts, Synced, AtTurn, Consumed, Finished, MayAsk, Crashed;
      r, finished, used := Normal, false, 0;
      var firstTurn := true;
      var pendingMessages := PollFirst(replies);
      while true
        invariant AtTurn(firstTurn, true, pendingMessages, replies, used) && used <= |replies| && r.Normal? && !finished
        invariant errors == []
        invariant log != [] && FirstPoll(log[0], old(skipInitialSteeringPoll), old(steering.messages))
        decreases |replies| - used
      {
        var outcome;
        outcome, used :- RunTurns(replies, used, firstTurn, pendingMessages);
        if outcome == RunEnded {
          finished := true;
          return;
        }
        if outcome == Waiting {
          StillPaying(replies);
          return;
        }
        firstTurn := false;
        var followUpMessages := PollFollowUps(replies, used);
        if |followUpMessages| > 0 {
          pendingMessages := followUpMessages;
          continue;
        }
        break;
      }
      finished := true;
      r := EndRun();
    }

    /** Every reply a waiting run has had is paid for. */
    lemma StillPaying(replies: seq<Reply>)
      requires Synced([]) && log != [] && Last(log).Asked? && Consumed(mode, log, replies, |replies|)
      ensures |replies| <= RepliesWithCalls(replies) + Queued()
    {
      hide Fold, Agreement, WellOrdered, SteeringOf, FollowUpsOf, MessagesOf, Consumed, RepliesWithCalls;
      WaitingBound(Base(), mode, log, replies);
    }

    /** The steering poll before the first turn. */
    method PollFirst(replies: seq<Reply>) returns (pendingMessages: seq<Message>)
      requires Synced([]) && log == []
      requires Mon().Talking? && Mon() == Talking(newMessages, Closed, Mon().last)
      modifies this`log, this`batches, this`skipInitialSteeringPoll, steering
      modifies followUps`messages, followUps`enqueued, followUps`mode
      ensures AtTurn(true, true, pendingMessages, replies, 0)
      ensures log != [] && FirstPoll(log[0], old(skipInitialSteeringPoll), old(steering.messages))
    {
      hide Mon, WellOrdered, SteeringOf, FollowUpsOf, MessagesOf, AnswersOf, AnswerTo, Synced;
      pendingMessages := GetSteeringMessages();
      NoAnswers();
      AnswersNext([], log[0]);
      assert log == [] + [log[0]];
    }

    /** The follow-up poll after the inner loop has stopped: it gives another round of turns,
        or nothing, and then the run may end. */
    method PollFollowUps(replies: seq<Reply>, used: nat) returns (pendingMessages: seq<Message>)
      requires AtTurn(false, false, [], replies, used)
      modifies this`log, this`batches, followUps
      modifies steering`messages, steering`enqueued, steering`mode
      ensures log != [] && old(log) != [] && log[0] == old(log)[0]
      ensures pendingMessages != [] ==> AtTurn(false, true, pendingMessages, replies, used)
      ensures pendingMessages == [] ==>
                Synced([]) && Finished(log) && Mon() == Gap(newMessages, false) && Consumed(mode, log, replies, used)
    {
      hide Mon, WellOrdered, SteeringOf, FollowUpsOf, MessagesOf, AnswersOf, AnswerTo, Synced;
      pendingMessages := GetFollowUpMessages();
    }

    /** A loop whose run has not begun. */
    ghost predicate Unstarted()
      reads this, sink, steering, followUps
    {
      && Valid() && trace == [] && log == [] && checkpoints == map[] && errors == []
      && batches == [Batch(prompts, [], [AgentStart, TurnStart])]
      && view0 == sink.View() && newMessages == prompts && context == view0.messages + prompts
      && steering.taken == steered0 && followUps.taken == followed0
    }

    /** What a run leaves behind. An ended run's trace is complete; a waiting run stands at a
        model request. Either way the event-sourced transcript is the private context. */
    ghost predicate Ran(finished: bool, replies: seq<Reply>, used: nat)
      reads this, sink, steering, followUps
    {
      && Synced([]) && log != [] && Consumed(mode, log, replies, used)
      && sink.messages == context
      && EndedOf(Mon()) == newMessages
      && (finished ==> Finished(log) && Complete(mode, trace))
      && (!finished ==> used == |replies| && Last(log).Asked? && Accepts(mode, trace))
    }

    /** Conservation: everything queued was drained before the run, or stands in newMessages
        after the prompts, or still waits, in queue order; every message a run adds has
        exactly one origin. */
    lemma QueuesConserved(finished: bool, replies: seq<Reply>, used: nat) returns (origins: seq<Origin>)
      requires Ran(finished, replies, used)
      ensures prompts <= newMessages && |origins| == |newMessages| - |prompts|
      ensures steering.enqueued ==
              steered0 + From(Steering, newMessages[|prompts|..], origins) + steering.messages
      ensures followUps.enqueued ==
              followed0 + From(FollowingUp, newMessages[|prompts|..], origins) + followUps.messages
      ensures From(Model, newMessages[|prompts|..], origins) == AnsweredOf(log)
    {
      hide From, MessagesOf, SteeringOf, FollowUpsOf, OriginsOf, AnsweredOf, WellOrdered, Fold, Agreement, Consumed;
      origins := OriginsOf(log);
      OriginsAccount(log);
      assert newMessages + [] == newMessages;
      assert newMessages[|prompts|..] == MessagesOf(log);
    }

    /** The same of a run that threw, of what it delivered and of what it lost. */
    lemma CrashConserves() returns (origins: seq<Origin>)
      requires Crashed()
      ensures sink.messages == view0.messages + Ended(trace)
      ensures var planned := prompts + MessagesOf(log);
              var lost := Lost(prompts, log, Ended(trace));
              && (planned <= Ended(trace) || planned == Ended(trace) + lost)
              && |origins| == |MessagesOf(log)|
              && steering.enqueued == steered0 + From(Steering, MessagesOf(log), origins) + steering.messages
              && followUps.enqueued == followed0 + From(FollowingUp, MessagesOf(log), origins) + followUps.messages
    {
      hide From, MessagesOf, SteeringOf, FollowUpsOf, OriginsOf, WellOrdered, Fold, Run, Ended, EndedOf, Agreement;
      origins := OriginsOf(log);
      OriginsAccount(log);
      EndedIsTraced(mode, trace);
      TranscriptIsEnded(view0, trace);
      assert sink.View().messages == sink.messages;
      CutShortOrThrough(prompts, log, Ended(trace));
    }

    /** Exactly when a run loses a message it was given or had drained: when a listener throws on
        the path of one of its batches, before the end of the batch's last message. A host whose
        listeners do not throw at the events that deliver messages never makes it lose one. */
    lemma RunLosesIff(finished: bool, replies: seq<Reply>, used: nat)
      requires Crashed() || Ran(finished, replies, used)
      ensures Lost(prompts, log, Ended(trace)) != [] <==> exists b :: b in batches && Loses(host, b)
      ensures SafeDelivery(host) ==> Lost(prompts, log, Ended(trace)) == []
    {
      hide Loses, Run, Fold, WellOrdered, MessagesOf, SteeringOf, FollowUpsOf, BatchesOf, Agreement, Recorded, After;
      hide Consumed, SafeDelivery, EndedOf, Ended;
      EndedIsTraced(mode, trace);
      if Crashed() {
        LosesIff(host, prompts, log, batches, trace, Ended(trace));
      } else {
        assert newMessages + [] == newMessages;
        forall b | b in batches ensures !Loses(host, b) {
          if b.messages == [] {
            EmptyLosesNothing(host, b);
          }
        }
      }
      if SafeDelivery(host) {
        forall b | b in batches ensures !Loses(host, b) {
          SafeLosesNothing(host, prompts, log, batches, b);
        }
      }
    }

    /** A run without prompts whose first poll gives message first, in a host whose listeners
        throw at its message_start. */
    lemma FirstMessageLost(message: Message, replies: seq<Reply>, r: Awaited, finished: bool, used: nat)
      requires prompts == [] && view0.messages == [] && steered0 == []
      requires ThrowsAtFirst(host, message)
      requires if r.Normal? then errors == [] && Ran(finished, replies, used) else Crashed()
      requires log != [] ==> FirstPoll(log[0], false, [message])
      ensures r.Thrown? && sink.messages == [] && [message] <= steering.taken
      ensures steering.enqueued == steering.taken + steering.messages
    {
      hide Run, Fold, WellOrdered, MessagesOf, SteeringOf, FollowUpsOf, BatchesOf, Agreement, Recorded, After, Ended;
      hide Consumed, EndedOf, ThrowsAtFirst, Halted, CutShort, HeardAt;
      if log == [] {
        QuietUntilPoll(host, message, log, batches, trace);
      } else {
        DrainedFirst(log);
        FirstBatchLoses(host, message, log, batches);
        assert batches[1] in batches;
        if r.Thrown? {
          StopsAtFirst(host, message, log, batches, trace, EndedOf(Mon()));
          EndedIsTraced(mode, trace);
          TranscriptIsEnded(view0, trace);
          NothingEnded(message);
          assert sink.View().messages == sink.messages;
        }
      }
    }

    lemma FoldAgrees()
      requires Valid() && Mon() != Bad && EndedOf(Mon()) == newMessages && context == view0.messages + newMessages
      ensures sink.messages == context
    {
      TranscriptIsEnded(view0, trace);
      EndedIsTraced(mode, trace);
      assert sink.View().messages == sink.messages;
    }

    /** runAgentLoop: the prompts open the first turn. */
    method RunAgentLoop(replies: seq<Reply>) returns (r: Awaited, finished: bool, used: nat)
      requires Unstarted() && Protocol(replies)
      modifies this, sink, steering, followUps
      ensures r.Normal? ==> Ran(finished, replies, used)
      ensures r.Normal? && |replies| > RepliesWithCalls(replies) + Queued() ==> finished
      ensures r.Normal? ==> log != []
      ensures log != [] ==> FirstPoll(log[0], old(skipInitialSteeringPoll), old(steering.messages))
      ensures r.Thrown? ==> Crashed()
      ensures Reports(r)
      ensures NeverThrows(host) ==> r.Normal?
    {
      hide Run, Fold, Lasting, Valid, Next, ToolCalls, Live, Starts, WellOrdered, MessagesOf, SteeringOf, FollowUpsOf;
      hide AnswersOf, AnswerTo, BatchesOf, AllThrough, Halted;
      finished, used := false, 0;
      NothingLogged(Base(), prompts);
      assert steered0 + [] == steered0 && followed0 + [] == followed0;
      FirstBatch(prompts);
      :- EmitPrompts();
      r, finished, used := RunLoop(replies);
      if r.Normal? {
        FoldAgrees();
      } else {
        SomethingThrew();
      }
    }

    lemma SomethingThrew()
      requires Valid() && errors != []
      ensures !NeverThrows(host)
    {
      hide Fold, Agreement, Recorded;
      NothingThrewIff(host, trace, awaited, errors);
    }

    /** Only the prompts are on their way. */
    ghost predicate Starting()
      reads this, sink, steering, followUps
    {
      && Valid() && log == [] && batches == [Batch(prompts, [], [AgentStart, TurnStart])]
      && steering.taken == steered0 && followUps.taken == followed0
    }

    lemma PromptsHalt(i: nat, half: bool)
      requires Starting() && Mon() != Bad && FirstThrow(host, trace)
      requires i <= |prompts| && (half ==> i < |prompts|) && EndedOf(Mon()) == prompts[..i]
      requires trace == [AgentStart, TurnStart] + Brackets(prompts[..i])
                        + (if half then [MessageStart(prompts[i])] else [])
      ensures Crashed()
    {
      hide Valid, Run, EndedOf, BatchesOf, FirstThrow, Brackets, Halted, Loses;
      NothingLogged(Base(), prompts);
      FirstBatch(prompts);
      assert [] + prompts == prompts && [] + prompts[..i] == prompts[..i] && prompts + [] == prompts;
      assert [] + [AgentStart, TurnStart] == [AgentStart, TurnStart];
      HaltsOnPath(host, prompts, log, batches, trace, [], i, half);
      BracketsAt(prompts, i);
    }

    lemma RunHalts()
      requires Starting() && Mon() != Bad && FirstThrow(host, trace) && EndedOf(Mon()) == [] && trace == [AgentStart]
      ensures Crashed()
    {
      hide Valid, Run, EndedOf, BatchesOf, FirstThrow, Brackets, Halted, Loses;
      NothingLogged(Base(), prompts);
      FirstBatch(prompts);
      assert [] + prompts == prompts && prompts + [] == prompts;
      assert [] + [AgentStart, TurnStart][..1] == [AgentStart];
      HaltsInOpening(host, prompts, log, batches, trace, [], 1);
    }

    /** agent_start, the first turn_start, and one bracket per prompt. */
    method EmitPrompts() returns (r: Awaited)
      requires errors == []
      requires Starting() && trace == []
      modifies this`awaited, this`errors, this`trace, sink
      modifies steering`messages, steering`enqueued, steering`mode
      modifies followUps`messages, followUps`enqueued, followUps`mode
      ensures Valid()
      ensures r.Normal? ==> Mon().Talking? && Mon() == Talking(prompts, Closed, Mon().last)
      ensures r.Normal? ==> AllThrough(host, batches, trace) && trace == After(batches[0])
      ensures r.Normal? ==> old(steering.messages) <= steering.messages
      ensures r.Thrown? ==> Crashed() && log == []
      ensures Reports(r)
    {
      hide Run, Fold, Lasting, Valid, Next, Crashed, FirstThrow, Brackets, AllThrough;
      NothingEmitted(mode, view0);
      RunOpens(mode);
      r := Emit(AgentStart);
      if r.Thrown? {
        RunHalts();
        return;
      }
      r := Emit(TurnStart);
      NoBrackets(prompts);
      if r.Thrown? {
        PromptsHalt(0, false);
        return;
      }
      for i := 0 to |prompts|
        invariant Starting() && errors == [] && r.Normal? && old(steering.messages) <= steering.messages
        invariant trace == [AgentStart, TurnStart] + Brackets(prompts[..i])
        invariant Mon().Talking? && Mon() == Talking(prompts[..i], Closed, Mon().last)
      {
        BracketsAt(prompts, i);
        assert prompts[..i] + [prompts[i]] == prompts[..i + 1];
        var ended;
        r, ended := EmitMessage(prompts[i]);
        if r.Thrown? {
          PromptsHalt(if ended then i + 1 else i, !ended);
          return;
        }
      }
      PromptsThrough();
    }

    lemma PromptsThrough()
      requires Starting() && errors == [] && trace == [AgentStart, TurnStart] + Brackets(prompts[..|prompts|])
      ensures AllThrough(host, batches, trace) && trace == After(batches[0])
    {
      hide Fold, Agreement, Recorded, Brackets, Loses;
      assert prompts[..|prompts|] == prompts;
      assert [] + [AgentStart, TurnStart] == [AgentStart, TurnStart];
      NothingThrewIff(host, trace, awaited, errors);
      ThroughWhenQuiet(host, batches, trace, awaited);
    }

    /** runAgentLoopContinue: refused on an empty context or after an assistant message;
        otherwise a run without prompts. */
    method RunAgentLoopContinue(replies: seq<Reply>)
      returns (r: Awaited, refused: bool, finished: bool, used: nat)
      requires Unstarted() && prompts == [] && Protocol(replies)
      modifies this, sink, steering, followUps
      ensures refused <==> old(context) == [] || old(context)[|old(context)| - 1].Assistant?
      ensures refused ==> Unstarted()
      ensures refused ==> r == Thrown(if old(context) == [] then "Cannot continue: no messages in context"
                                      else "Cannot continue from message role: assistant")
      ensures !refused && r.Normal? ==> Ran(finished, replies, used)
      ensures !refused && r.Normal? && |replies| > RepliesWithCalls(replies) + Queued() ==> finished
      ensures !refused && log != [] ==> FirstPoll(log[0], old(skipInitialSteeringPoll), old(steering.messages))
      ensures !refused && r.Thrown? ==> Crashed()
      ensures !refused ==> Reports(r)
    {
      refused, finished, used := false, false, 0;
      if |context| == 0 {
        return Thrown("Cannot continue: no messages in context"), true, false, 0;
      }
      if context[|context| - 1].Assistant? {
        return Thrown("Cannot continue from message role: assistant"), true, false, 0;
      }
      r, finished, used := RunAgentLoop(replies);
    }
  }

  /** A run that loses a drained message: one is queued, and the listeners throw at its
      message_start. It was drained, and never reaches the transcript. */
  method LoseQueuedMessage(mode: ToolMode, message: Message, host: Host)
    returns (r: Awaited, sink: AgentState, steering: PendingMessageQueue)
    requires ThrowsAtFirst(host, message)
    ensures r.Thrown? && sink.messages == [] && [message] <= steering.taken
    ensures steering.enqueued == steering.taken + steering.messages
  {
    hide Fold, Agreement, Recorded, BatchesOf, After, ThrowsAtFirst, Starts, Live, RepliesWithCalls;
    hide FirstPoll, AgentLoop.Ran, AgentLoop.Crashed;
    sink := new AgentState([]);
    steering := new PendingMessageQueue(OneAtATime);
    var followUps := new PendingMessageQueue(OneAtATime);
    assert steering.enqueued == [];
    steering.Enqueue(message);
    assert steering.taken + steering.messages == steering.messages == [message];
    assert sink.View().messages == [];
    var replies: seq<Reply> := [];
    var loop := new AgentLoop(mode, steering, followUps, sink, [], [], false, host);
    var finished, used;
    assert loop.view0.messages + [] == loop.view0.messages;
    r, finished, used := loop.RunAgentLoop(replies);
    loop.FirstMessageLost(message, replies, r, finished, used);
  }
}
