/** Tool phases seen by the grammar: the monitor state while calls are prepared and while
    the concurrent schedule runs, and the lasting trace of a whole phase. */
module ToolPhase {
  import opened Basics
  import opened Messages
  import opened ToolExecution
  import opened ToolSchedule
  import opened Grammar

  /** The running call behind a prepared position. */
  function TaskAt(w: World, calls: seq<ToolCall>, k: nat): Task
    requires k < |calls|
  {
    var p := Prepare(w, k, calls[k]);
    Task(calls[k], if p.Prepared? then p.tool.execute(k, calls[k].id, p.args).updates else [],
         OutcomeOf(w, k, calls[k]))
  }

  function TasksAt(w: World, calls: seq<ToolCall>, order: seq<nat>): seq<Task>
    requires forall i :: 0 <= i < |order| ==> order[i] < |calls|
  {
    seq(|order|, i requires 0 <= i < |order| => TaskAt(w, calls, order[i]))
  }

  function StartOf(call: ToolCall): Event {
    ToolStart(call.id, call.name, call.arguments)
  }

  function DeliveryAt(w: World, calls: seq<ToolCall>, k: nat): seq<Event>
    requires k < |calls|
  {
    OutcomeEvents(TaskAt(w, calls, k))
  }

  /** Lasting trace of sequential mode, first n calls: start and outcome, call by call. */
  function SequentialTrace(w: World, calls: seq<ToolCall>, n: nat): seq<Event>
    requires n <= |calls|
  {
    if n == 0 then []
    else SequentialTrace(w, calls, n - 1) + [StartOf(calls[n - 1])] + DeliveryAt(w, calls, n - 1)
  }

  /** Lasting trace of the preparation pass of parallel mode: immediate outcomes at once. */
  function PreparationTrace(w: World, calls: seq<ToolCall>, n: nat): seq<Event>
    requires n <= |calls|
  {
    if n == 0 then []
    else PreparationTrace(w, calls, n - 1) + [StartOf(calls[n - 1])] +
         if IsImmediate(w, calls, n - 1) then DeliveryAt(w, calls, n - 1) else []
  }

  /** Lasting trace of a whole tool phase. */
  function PhaseTrace(mode: ToolMode, w: World, calls: seq<ToolCall>): seq<Event> {
    if mode == Sequential then SequentialTrace(w, calls, |calls|)
    else
      var tasks := TasksAt(w, calls, Pick(w, calls, |calls|, false));
      PreparationTrace(w, calls, |calls|) + Deliveries(tasks, |tasks|)
  }

  function PhaseOrder(mode: ToolMode, w: World, calls: seq<ToolCall>): (r: seq<nat>)
    ensures forall i :: 0 <= i < |r| ==> r[i] < |calls|
  {
    if mode == Sequential then SourceOrder(|calls|) else ParallelOrder(w, calls)
  }

  /** The results of a whole tool phase. */
  function PhaseResults(mode: ToolMode, w: World, calls: seq<ToolCall>): seq<Message> {
    Results(w, calls, PhaseOrder(mode, w, calls))
  }

  /** One more call of the preparation pass. */
  lemma PrepareNext(w: World, calls: seq<ToolCall>, k: nat, lasting: seq<Event>)
    requires k < |calls|
    ensures var results := Results(w, calls, Pick(w, calls, k, true));
            Results(w, calls, Pick(w, calls, k + 1, true)) ==
            if IsImmediate(w, calls, k) then results + [ResultAt(w, calls, k)] else results
    ensures var tasks := TasksAt(w, calls, Pick(w, calls, k, false));
            TasksAt(w, calls, Pick(w, calls, k + 1, false)) ==
            if IsImmediate(w, calls, k) then tasks else tasks + [TaskAt(w, calls, k)]
    ensures lasting + PreparationTrace(w, calls, k + 1) ==
            lasting + PreparationTrace(w, calls, k) + [StartOf(calls[k])] +
            if IsImmediate(w, calls, k) then DeliveryAt(w, calls, k) else []
  {
    hide IsImmediate, Pick, Results, TasksAt, PreparationTrace, DeliveryAt;
    PickNext(w, calls, k + 1);
    ResultsGrow(w, calls, Pick(w, calls, k, true), k);
    TasksGrow(w, calls, Pick(w, calls, k, false), k);
    TraceGrows(w, calls, k, lasting);
  }

  lemma ResultsGrow(w: World, calls: seq<ToolCall>, order: seq<nat>, k: nat)
    requires k < |calls| && forall i :: 0 <= i < |order| ==> order[i] < |calls|
    ensures Results(w, calls, order + [k]) == Results(w, calls, order) + [ResultAt(w, calls, k)]
  {
    hide ResultAt;
  }

  lemma TasksGrow(w: World, calls: seq<ToolCall>, order: seq<nat>, k: nat)
    requires k < |calls| && forall i :: 0 <= i < |order| ==> order[i] < |calls|
    ensures TasksAt(w, calls, order + [k]) == TasksAt(w, calls, order) + [TaskAt(w, calls, k)]
  {
    hide TaskAt;
  }

  lemma TraceGrows(w: World, calls: seq<ToolCall>, k: nat, lasting: seq<Event>)
    requires k < |calls|
    ensures lasting + PreparationTrace(w, calls, k + 1) ==
            lasting + PreparationTrace(w, calls, k) + [StartOf(calls[k])] +
            if IsImmediate(w, calls, k) then DeliveryAt(w, calls, k) else []
  {
    hide IsImmediate, DeliveryAt;
  }

  lemma PrepareNone(w: World, calls: seq<ToolCall>)
    ensures Results(w, calls, Pick(w, calls, 0, true)) == [] && TasksAt(w, calls, Pick(w, calls, 0, false)) == []
    ensures PreparationTrace(w, calls, 0) == []
  {
  }

  lemma TaskCall(w: World, calls: seq<ToolCall>, k: nat)
    requires k < |calls|
    ensures TaskAt(w, calls, k).call == calls[k]
  {
  }

  /** What an immediate call delivers. */
  lemma ImmediateDelivery(w: World, calls: seq<ToolCall>, k: nat)
    requires k < |calls| && IsImmediate(w, calls, k)
    ensures var o := Prepare(w, k, calls[k]).outcome;
            && ResultAt(w, calls, k) == ResultMessage(calls[k], o)
            && DeliveryAt(w, calls, k) ==
               [ToolEnd(calls[k].id, calls[k].name, o.output, o.isError),
                MessageStart(ResultAt(w, calls, k)), MessageEnd(ResultAt(w, calls, k))]
  {
  }

  /** Immediate results followed by the results of the executed calls. */
  lemma ParallelResults(w: World, calls: seq<ToolCall>)
    ensures var tasks := TasksAt(w, calls, Pick(w, calls, |calls|, false));
            Results(w, calls, Pick(w, calls, |calls|, true)) + TaskResults(tasks, |tasks|)
            == Results(w, calls, ParallelOrder(w, calls))
  {
    forall k | 0 <= k < |calls| ensures Result(TaskAt(w, calls, k)) == ResultAt(w, calls, k) {
      TaskResult(w, calls, k);
    }
    hide TaskAt, ResultAt, Result, Pick;
  }

  lemma TaskResult(w: World, calls: seq<ToolCall>, k: nat)
    requires k < |calls|
    ensures Result(TaskAt(w, calls, k)) == ResultAt(w, calls, k)
  {
  }

  // ---------------------------------------------------------------- running calls

  function IdsFrom(tasks: seq<Task>, n: nat): multiset<string>
    decreases |tasks| - n
  {
    if n >= |tasks| then multiset{} else multiset{tasks[n].call.id} + IdsFrom(tasks, n + 1)
  }

  lemma IdsFromHead(tasks: seq<Task>, n: nat)
    requires n < |tasks|
    ensures tasks[n].call.id in IdsFrom(tasks, n)
    ensures IdsFrom(tasks, n) - multiset{tasks[n].call.id} == IdsFrom(tasks, n + 1)
  {
    assert IdsFrom(tasks, n) == multiset{tasks[n].call.id} + IdsFrom(tasks, n + 1);
  }

  lemma {:induction false} IdsFromHas(tasks: seq<Task>, n: nat, k: nat)
    requires n <= k < |tasks|
    ensures tasks[k].call.id in IdsFrom(tasks, n)
    decreases k - n
  {
    if n < k {
      IdsFromHas(tasks, n + 1, k);
    }
  }

  lemma {:induction false} IdsFromExtend(tasks: seq<Task>, t: Task, n: nat)
    requires n <= |tasks|
    ensures IdsFrom(tasks + [t], n) == IdsFrom(tasks, n) + multiset{t.call.id}
    decreases |tasks| - n
  {
    if n < |tasks| {
      IdsFromExtend(tasks, t, n + 1);
    }
  }

  // ---------------------------------------------------------------- the monitor in a phase

  /** Before a call starts, k calls of response being done with: running holds the ids of
      the prepared ones that have not ended. */
  function PhaseMonitor(ended: seq<Message>, response: AssistantMessage, k: nat,
                        running: multiset<string>, results: seq<Message>): Monitor
    requires k <= |ToolCalls(response)|
  {
    if k == 0 then Talking(ended, Closed, Some(response))
    else Tooling(ended + results, Closed, response, ToolCalls(response)[k..], running, None, results)
  }

  /** After the start of call k. */
  function StartedMonitor(ended: seq<Message>, response: AssistantMessage, k: nat,
                          running: multiset<string>, results: seq<Message>): Monitor
    requires k < |ToolCalls(response)|
  {
    Tooling(ended + results, Closed, response, ToolCalls(response)[k + 1..],
            running + multiset{ToolCalls(response)[k].id}, None, results)
  }

  lemma StartCall(mode: ToolMode, ended: seq<Message>, response: AssistantMessage, k: nat,
                  running: multiset<string>, results: seq<Message>)
    requires k < |ToolCalls(response)| && !Failed(response)
    requires mode == Sequential ==> running == multiset{}
    requires k == 0 ==> running == multiset{} && results == []
    ensures Next(mode, PhaseMonitor(ended, response, k, running, results), StartOf(ToolCalls(response)[k]))
            == StartedMonitor(ended, response, k, running, results)
  {
    if k == 0 {
      StartFirst(mode, ended, response);
    } else {
      StartLater(mode, ended, response, k, running, results);
    }
  }

  lemma StartFirst(mode: ToolMode, ended: seq<Message>, response: AssistantMessage)
    requires ToolCalls(response) != [] && !Failed(response)
    ensures Next(mode, PhaseMonitor(ended, response, 0, multiset{}, []), StartOf(ToolCalls(response)[0]))
            == StartedMonitor(ended, response, 0, multiset{}, [])
  {
    hide ToolCalls, NextTooling;
    assert ended + [] == ended;
    assert multiset{} + multiset{ToolCalls(response)[0].id} == multiset{ToolCalls(response)[0].id};
  }

  lemma StartLater(mode: ToolMode, ended: seq<Message>, response: AssistantMessage, k: nat,
                   running: multiset<string>, results: seq<Message>)
    requires 0 < k < |ToolCalls(response)|
    requires mode == Sequential ==> running == multiset{}
    ensures Next(mode, PhaseMonitor(ended, response, k, running, results), StartOf(ToolCalls(response)[k]))
            == StartedMonitor(ended, response, k, running, results)
  {
    hide ToolCalls, NextTalking;
    var calls := ToolCalls(response);
    assert calls[k..][1..] == calls[k + 1..];
  }

  lemma PhaseStarts(ended: seq<Message>, response: AssistantMessage)
    ensures PhaseMonitor(ended, response, 0, multiset{}, []) == Talking(ended, Closed, Some(response))
  {
  }

  /** A started call that waits to run counts as running. */
  lemma StartedWaits(ended: seq<Message>, response: AssistantMessage, k: nat,
                     running: multiset<string>, results: seq<Message>)
    requires k < |ToolCalls(response)|
    ensures StartedMonitor(ended, response, k, running, results)
            == PhaseMonitor(ended, response, k + 1, running + multiset{ToolCalls(response)[k].id}, results)
  {
  }

  /** A started call whose result has been delivered is no longer running. */
  lemma StartedAnswered(ended: seq<Message>, response: AssistantMessage, k: nat,
                        running: multiset<string>, results: seq<Message>, result: Message)
    requires k < |ToolCalls(response)|
    ensures var s := StartedMonitor(ended, response, k, running, results);
            s.(ended := s.ended + [result], running := s.running - multiset{ToolCalls(response)[k].id},
               results := s.results + [result])
            == PhaseMonitor(ended, response, k + 1, running, results + [result])
  {
    hide ToolCalls;
    var id := ToolCalls(response)[k].id;
    assert running + multiset{id} - multiset{id} == running;
    assert ended + results + [result] == ended + (results + [result]);
  }

  /** While the schedule runs: ended is what the turn had ended before its tool phase, first
      the results of the immediate calls. */
  function ScheduleMonitor(ended: seq<Message>, response: AssistantMessage, first: seq<Message>,
                           tasks: seq<Task>, s: Sched): Monitor
  {
    var results := first + s.results;
    if s.stage.Awaiting? || s.current >= |tasks| then
      Tooling(ended + results, Closed, response, [], IdsFrom(tasks, s.current), None, results)
    else
      var due := Result(tasks[s.current]);
      Tooling(ended + results, if s.stage.EndSent? then Closed else Open(due), response, [],
              IdsFrom(tasks, s.current + 1), Some(due), results)
  }

  lemma ScheduleNotBad(ended: seq<Message>, response: AssistantMessage, first: seq<Message>, tasks: seq<Task>, s: Sched)
    ensures ScheduleMonitor(ended, response, first, tasks, s).Tooling?
  {
  }

  /** Every step of every schedule is grammatical, and moves the monitor along. */
  lemma ScheduleStep(mode: ToolMode, ended: seq<Message>, response: AssistantMessage, first: seq<Message>,
                     tasks: seq<Task>, s: Sched, c: Choice)
    requires Shape(tasks, s) && Enabled(tasks, s, c)
    ensures var before := ScheduleMonitor(ended, response, first, tasks, s);
            var after := ScheduleMonitor(ended, response, first, tasks, Step(tasks, s, c));
            match Emitted(tasks, s, c)
            case None => after == before
            case Some(e) => after == Next(mode, before, e)
  {
    hide Next, ScheduleMonitor, Step, Shape;
    match c {
      case Worker(k) => ScheduleWorkerStep(mode, ended, response, first, tasks, s, k);
      case Loop =>
        match s.stage {
          case Awaiting => ScheduleEnd(mode, ended, response, first, tasks, s);
          case EndSent => ScheduleMessageStart(mode, ended, response, first, tasks, s);
          case StartSent => ScheduleMessageEnd(mode, ended, response, first, tasks, s);
        }
    }
  }

  lemma ScheduleWorkerStep(mode: ToolMode, ended: seq<Message>, response: AssistantMessage, first: seq<Message>,
                           tasks: seq<Task>, s: Sched, k: nat)
    requires Shape(tasks, s) && Enabled(tasks, s, Worker(k))
    ensures var before := ScheduleMonitor(ended, response, first, tasks, s);
            var after := ScheduleMonitor(ended, response, first, tasks, Step(tasks, s, Worker(k)));
            match Emitted(tasks, s, Worker(k))
            case None => after == before
            case Some(e) => after == Next(mode, before, e)
  {
    hide ToolCalls, MayStart, NextTalking, IdsFrom;
    IdsFromHas(tasks, if s.stage.Awaiting? then s.current else s.current + 1, k);
  }

  lemma ScheduleEnd(mode: ToolMode, ended: seq<Message>, response: AssistantMessage, first: seq<Message>,
                    tasks: seq<Task>, s: Sched)
    requires Shape(tasks, s) && Enabled(tasks, s, Loop) && s.stage.Awaiting?
    ensures ScheduleMonitor(ended, response, first, tasks, Step(tasks, s, Loop))
            == Next(mode, ScheduleMonitor(ended, response, first, tasks, s), CallEnd(tasks[s.current]))
  {
    hide ToolCalls, MayStart, NextTalking, IdsFrom;
    IdsFromHead(tasks, s.current);
  }

  lemma ScheduleMessageStart(mode: ToolMode, ended: seq<Message>, response: AssistantMessage, first: seq<Message>,
                             tasks: seq<Task>, s: Sched)
    requires Shape(tasks, s) && Enabled(tasks, s, Loop) && s.stage.EndSent?
    ensures ScheduleMonitor(ended, response, first, tasks, Step(tasks, s, Loop))
            == Next(mode, ScheduleMonitor(ended, response, first, tasks, s), MessageStart(Result(tasks[s.current])))
  {
    hide ToolCalls, MayStart, NextTalking, IdsFrom;
  }

  lemma ScheduleMessageEnd(mode: ToolMode, ended: seq<Message>, response: AssistantMessage, first: seq<Message>,
                           tasks: seq<Task>, s: Sched)
    requires Shape(tasks, s) && Enabled(tasks, s, Loop) && s.stage.StartSent?
    ensures ScheduleMonitor(ended, response, first, tasks, Step(tasks, s, Loop))
            == Next(mode, ScheduleMonitor(ended, response, first, tasks, s), MessageEnd(Result(tasks[s.current])))
  {
    hide ToolCalls, MayStart, NextTalking, IdsFrom;
    var due := Result(tasks[s.current]);
    assert ended + (first + s.results) + [due] == ended + (first + (s.results + [due]));
    assert first + s.results + [due] == first + (s.results + [due]);
  }

  // ---------------------------------------------------------------- partial updates

  /** The partial updates a prepared call emits. */
  function UpdatesBy(w: World, k: nat, call: ToolCall, p: Preparation): seq<Event>
    requires p.Prepared?
  {
    var updates := p.tool.execute(k, call.id, p.args).updates;
    seq(|updates|, i requires 0 <= i < |updates| => ToolUpdate(call.id, call.name, call.arguments, updates[i]))
  }

  /** What the call at position k streams. */
  function StreamedBy(w: World, calls: seq<ToolCall>, k: nat): seq<Event>
    requires k < |calls|
  {
    var p := Prepare(w, k, calls[k]);
    if p.Prepared? then UpdatesBy(w, k, calls[k], p) else []
  }

  /** Everything sequential mode emits for the first n calls. */
  function SequentialEvents(w: World, calls: seq<ToolCall>, n: nat): seq<Event>
    requires n <= |calls|
  {
    if n == 0 then []
    else
      SequentialEvents(w, calls, n - 1) + [StartOf(calls[n - 1])] + StreamedBy(w, calls, n - 1)
      + DeliveryAt(w, calls, n - 1)
  }

  /** Everything a tool phase emits: call by call in sequential mode; in parallel mode the
      preparation pass, and then the events of a schedule that has come to its end. */
  ghost predicate PhaseEvents(mode: ToolMode, w: World, calls: seq<ToolCall>, events: seq<Event>, schedule: seq<Choice>)
  {
    if mode == Sequential then events == SequentialEvents(w, calls, |calls|)
    else
      var tasks := TasksAt(w, calls, Pick(w, calls, |calls|, false));
      && Done(tasks, Execute(tasks, schedule))
      && events == PreparationTrace(w, calls, |calls|) + EventsOf(Execute(tasks, schedule).events)
  }

  /** A call that runs streams exactly what its tool does, as updates of that call; a refused
      call streams nothing. */
  lemma StreamsWhatRuns(w: World, calls: seq<ToolCall>, k: nat)
    requires k < |calls|
    ensures forall i: nat, args :: Allowed(w, k, calls[k], i, args) ==>
              var updates := w.tools[i].execute(k, calls[k].id, args).updates;
              && |StreamedBy(w, calls, k)| == |updates|
              && forall j :: 0 <= j < |updates| ==>
                   StreamedBy(w, calls, k)[j] ==
                   ToolUpdate(calls[k].id, calls[k].name, calls[k].arguments, updates[j])
    ensures (exists message :: Rejected(w, k, calls[k], message) || Blocked(w, k, calls[k], message)) ==>
              StreamedBy(w, calls, k) == []
  {
    hide Prepare, OutcomeOf, Rejected, Blocked;
    forall i: nat, args | Allowed(w, k, calls[k], i, args)
      ensures Prepare(w, k, calls[k]) == Prepared(w.tools[i], args)
    {
      AllowedRuns(w, calls, k, i, args);
    }
    if message :| Rejected(w, k, calls[k], message) || Blocked(w, k, calls[k], message) {
      RefusedFails(w, calls, k, message);
    }
  }

  /** The updates with tag k, in order. */
  function TaggedWith(updates: seq<Event>, tags: seq<nat>, k: nat): seq<Event>
    requires |updates| == |tags|
  {
    if updates == [] then []
    else
      var n := |updates| - 1;
      TaggedWith(updates[..n], tags[..n], k) + if tags[n] == k then [updates[n]] else []
  }

  lemma TaggedNext(updates: seq<Event>, tags: seq<nat>, e: Event, t: nat, k: nat)
    requires |updates| == |tags|
    ensures TaggedWith(updates + [e], tags + [t], k) == TaggedWith(updates, tags, k) + if t == k then [e] else []
  {
    assert (updates + [e])[..|updates|] == updates && (tags + [t])[..|tags|] == tags;
  }

  lemma {:induction false} TaggedBlock(updates: seq<Event>, tags: seq<nat>, more: seq<Event>, t: nat, k: nat)
    requires |updates| == |tags|
    ensures TaggedWith(updates + more, tags + seq(|more|, i => t), k) ==
            TaggedWith(updates, tags, k) + if t == k then more else []
    decreases |more|
  {
    var ts := seq(|more|, i => t);
    if more == [] {
      assert updates + more == updates && tags + ts == tags;
      assert TaggedWith(updates, tags, k) + [] == TaggedWith(updates, tags, k);
    } else {
      var n := |more| - 1;
      TaggedBlock(updates, tags, more[..n], t, k);
      TaggedNext(updates + more[..n], tags + seq(n, i => t), more[n], t, k);
      assert updates + more[..n] + [more[n]] == updates + more && tags + seq(n, i => t) + [t] == tags + ts;
      assert more[..n] + [more[n]] == more;
    }
  }

  lemma {:induction false} TagShows(updates: seq<Event>, tags: seq<nat>, k: nat)
    requires |updates| == |tags|
    ensures k in tags <==> TaggedWith(updates, tags, k) != []
  {
    if updates != [] {
      var n := |updates| - 1;
      TagShows(updates[..n], tags[..n], k);
      assert tags == tags[..n] + [tags[n]];
    }
  }

  /** The updates are an interleaving of what the first n calls stream, each call's in order;
      tags says which update is whose. */
  ghost predicate Interleaves(w: World, calls: seq<ToolCall>, n: nat, updates: seq<Event>, tags: seq<nat>)
    requires n <= |calls|
  {
    && |tags| == |updates| && (forall t :: t in tags ==> t < n)
    && forall k :: 0 <= k < n ==> TaggedWith(updates, tags, k) == StreamedBy(w, calls, k)
  }

  lemma SequentialRound(w: World, calls: seq<ToolCall>, n: nat)
    requires 0 < n <= |calls|
    ensures Updates(SequentialEvents(w, calls, n)) ==
            Updates(SequentialEvents(w, calls, n - 1)) + StreamedBy(w, calls, n - 1)
  {
    hide *;
    var start, streamed, delivery := [StartOf(calls[n - 1])], StreamedBy(w, calls, n - 1), DeliveryAt(w, calls, n - 1);
    RoundUpdates(w, calls, n - 1);
    SequentialNext(w, calls, n);
    var before := SequentialEvents(w, calls, n - 1);
    UpdatesConcat(before, start);
    UpdatesConcat(before + start, streamed);
    UpdatesConcat(before + start + streamed, delivery);
  }

  lemma SequentialNone(w: World, calls: seq<ToolCall>)
    ensures SequentialEvents(w, calls, 0) == []
  {
  }

  lemma SequentialNext(w: World, calls: seq<ToolCall>, n: nat)
    requires 0 < n <= |calls|
    ensures SequentialEvents(w, calls, n) ==
            SequentialEvents(w, calls, n - 1) + [StartOf(calls[n - 1])] + StreamedBy(w, calls, n - 1)
            + DeliveryAt(w, calls, n - 1)
  {
    hide StreamedBy, DeliveryAt, StartOf;
  }

  lemma RoundUpdates(w: World, calls: seq<ToolCall>, k: nat)
    requires k < |calls|
    ensures Updates([StartOf(calls[k])]) == Updates(DeliveryAt(w, calls, k)) == []
    ensures Updates(StreamedBy(w, calls, k)) == StreamedBy(w, calls, k)
  {
    hide Updates, OutcomeOf, Prepare;
    AllUpdates([StartOf(calls[k])]);
    AllUpdates(StreamedBy(w, calls, k));
    AllUpdates(DeliveryAt(w, calls, k));
  }

  lemma {:induction false} SequentialStreams(w: World, calls: seq<ToolCall>, n: nat) returns (tags: seq<nat>)
    requires n <= |calls|
    ensures Interleaves(w, calls, n, Updates(SequentialEvents(w, calls, n)), tags)
    ensures forall i, j :: 0 <= i <= j < |tags| ==> tags[i] <= tags[j]
  {
    hide StreamedBy, Updates, TaggedWith, SequentialEvents;
    tags := [];
    if n > 0 {
      tags := SequentialStreams(w, calls, n - 1);
      SequentialRound(w, calls, n);
      tags := RoundInterleaves(w, calls, n, Updates(SequentialEvents(w, calls, n - 1)), tags);
    } else {
      NothingStreamed(w, calls);
    }
  }

  lemma NothingStreamed(w: World, calls: seq<ToolCall>)
    ensures Updates(SequentialEvents(w, calls, 0)) == []
  {
  }

  lemma RoundInterleaves(w: World, calls: seq<ToolCall>, n: nat, updates: seq<Event>, tags: seq<nat>)
    returns (longer: seq<nat>)
    requires 0 < n <= |calls| && Interleaves(w, calls, n - 1, updates, tags)
    requires forall i, j :: 0 <= i <= j < |tags| ==> tags[i] <= tags[j]
    ensures Interleaves(w, calls, n, updates + StreamedBy(w, calls, n - 1), longer)
    ensures forall i, j :: 0 <= i <= j < |longer| ==> longer[i] <= longer[j]
  {
    hide StreamedBy, TaggedWith;
    var streamed := StreamedBy(w, calls, n - 1);
    longer := tags + seq(|streamed|, i => n - 1);
    forall i | 0 <= i < |longer| ensures longer[i] < n && (i < |tags| ==> longer[i] < n - 1) {
      assert i < |tags| ==> tags[i] in tags;
    }
    forall k | 0 <= k < n ensures TaggedWith(updates + streamed, longer, k) == StreamedBy(w, calls, k) {
      TaggedBlock(updates, tags, streamed, n - 1, k);
      TagShows(updates, tags, k);
      assert k < n - 1 ==> TaggedWith(updates, tags, k) + [] == TaggedWith(updates, tags, k);
    }
  }

  /** The tags of a schedule's updates, as positions of the response. */
  function TagsOf(events: seq<Tagged>, order: seq<nat>): seq<nat>
    requires forall i :: 0 <= i < |events| ==> events[i].task < |order|
  {
    if events == [] then []
    else
      var last := events[|events| - 1];
      TagsOf(events[..|events| - 1], order) + if last.event.ToolUpdate? then [order[last.task]] else []
  }

  lemma {:induction false} ScheduleTags(events: seq<Tagged>, order: seq<nat>, k: nat)
    requires forall i :: 0 <= i < |events| ==> events[i].task < |order|
    requires forall i, j :: 0 <= i < j < |order| ==> order[i] < order[j]
    ensures |TagsOf(events, order)| == |Updates(EventsOf(events))|
    ensures forall t :: t in TagsOf(events, order) ==> t in order
    ensures k < |order| ==>
              TaggedWith(Updates(EventsOf(events)), TagsOf(events, order), order[k]) == UpdatesOf(events, k)
  {
    if events == [] {
      assert EventsOf(events) == [];
    } else {
      var init, last := events[..|events| - 1], events[|events| - 1];
      ScheduleTags(init, order, k);
      assert events == init + [last];
      EventsNext(init, last);
      UpdatesNext(EventsOf(init), last.event);
      hide Updates, EventsOf;
      if last.event.ToolUpdate? && k < |order| {
        TaggedNext(Updates(EventsOf(init)), TagsOf(init, order), last.event, order[last.task], order[k]);
      } else {
        assert Updates(EventsOf(init)) + [] == Updates(EventsOf(init));
        assert TagsOf(init, order) + [] == TagsOf(init, order);
      }
    }
  }

  lemma {:induction false} PreparationStreams(w: World, calls: seq<ToolCall>, n: nat)
    requires n <= |calls|
    ensures Updates(PreparationTrace(w, calls, n)) == []
  {
    hide *;
    if n > 0 {
      PreparationStreams(w, calls, n - 1);
      var before, start := PreparationTrace(w, calls, n - 1), [StartOf(calls[n - 1])];
      var delivery := if IsImmediate(w, calls, n - 1) then DeliveryAt(w, calls, n - 1) else [];
      PreparationNext(w, calls, n - 1);
      RoundUpdates(w, calls, n - 1);
      AllUpdates([]);
      UpdatesConcat(before, start);
      UpdatesConcat(before + start, delivery);
    } else {
      PrepareNone(w, calls);
      AllUpdates([]);
    }
  }

  lemma PreparationNext(w: World, calls: seq<ToolCall>, k: nat)
    requires k < |calls|
    ensures PreparationTrace(w, calls, k + 1) ==
            PreparationTrace(w, calls, k) + [StartOf(calls[k])] +
            if IsImmediate(w, calls, k) then DeliveryAt(w, calls, k) else []
  {
    hide IsImmediate, DeliveryAt, StartOf;
  }

  lemma TaskStreams(w: World, calls: seq<ToolCall>, k: nat)
    requires k < |calls|
    ensures var t := TaskAt(w, calls, k);
            !IsImmediate(w, calls, k) ==> CallUpdates(t, |t.updates|) == StreamedBy(w, calls, k)
    ensures IsImmediate(w, calls, k) ==> StreamedBy(w, calls, k) == []
  {
  }

  lemma ScheduleStreams(w: World, calls: seq<ToolCall>, schedule: seq<Choice>) returns (tags: seq<nat>)
    requires var tasks := TasksAt(w, calls, Pick(w, calls, |calls|, false)); Done(tasks, Execute(tasks, schedule))
    ensures var tasks := TasksAt(w, calls, Pick(w, calls, |calls|, false));
            Interleaves(w, calls, |calls|, Updates(EventsOf(Execute(tasks, schedule).events)), tags)
  {
    hide TaskAt, Pick, IsImmediate, Updates, EventsOf, StreamedBy, Execute, CallUpdates, UpdatesOf, TagsOf, TaggedWith;
    var order := Pick(w, calls, |calls|, false);
    var tasks := TasksAt(w, calls, order);
    var events := Execute(tasks, schedule).events;
    PickSound(w, calls, |calls|, false);
    ScheduleIndependence(tasks, schedule);
    ScheduleFits(tasks, schedule);
    tags := TagsOf(events, order);
    ScheduleTags(events, order, 0);
    forall k | 0 <= k < |calls|
      ensures TaggedWith(Updates(EventsOf(events)), tags, k) == StreamedBy(w, calls, k)
    {
      TaskStreams(w, calls, k);
      if IsImmediate(w, calls, k) {
        TagShows(Updates(EventsOf(events)), tags, k);
      } else {
        var t :| 0 <= t < |order| && order[t] == k;
        ScheduleTags(events, order, t);
      }
    }
  }

  lemma ScheduleFits(tasks: seq<Task>, schedule: seq<Choice>)
    ensures forall i :: 0 <= i < |Execute(tasks, schedule).events| ==>
              Execute(tasks, schedule).events[i].task < |tasks|
  {
    hide Execute, Delivered, Streamed;
    ExecuteInv(tasks, schedule);
  }

  /** The partial updates of a tool phase, in either mode and under any scheduler: an
      interleaving of what the calls that run stream, each call's in order; none is of a
      refused call. */
  lemma PhaseStreams(mode: ToolMode, w: World, calls: seq<ToolCall>, events: seq<Event>, schedule: seq<Choice>)
    returns (tags: seq<nat>)
    requires PhaseEvents(mode, w, calls, events, schedule)
    ensures Interleaves(w, calls, |calls|, Updates(events), tags)
    ensures forall t :: t in tags ==> exists i: nat, args :: Allowed(w, t, calls[t], i, args)
    ensures mode == Sequential ==> forall i, j :: 0 <= i <= j < |tags| ==> tags[i] <= tags[j]
  {
    hide Pick, IsImmediate, Updates, EventsOf, StreamedBy, Execute, TaggedWith, SequentialEvents, PreparationTrace;
    hide TasksAt, Allowed;
    if mode == Sequential {
      tags := SequentialStreams(w, calls, |calls|);
    } else {
      tags := ScheduleStreams(w, calls, schedule);
      var tasks := TasksAt(w, calls, Pick(w, calls, |calls|, false));
      PreparationStreams(w, calls, |calls|);
      UpdatesConcat(PreparationTrace(w, calls, |calls|), EventsOf(Execute(tasks, schedule).events));
      assert Updates(events) == Updates(EventsOf(Execute(tasks, schedule).events));
    }
    forall t | t in tags ensures exists i: nat, args :: Allowed(w, t, calls[t], i, args) {
      TagShows(Updates(events), tags, t);
      TaskStreams(w, calls, t);
      RefusedOrAllowed(w, calls, t);
    }
  }

  // ---------------------------------------------------------------- driving the schedule

  function StepEvents(tasks: seq<Task>, s: Sched, c: Choice): seq<Event>
    requires Enabled(tasks, s, c)
  {
    if Emitted(tasks, s, c).Some? then [Emitted(tasks, s, c).value] else []
  }

  lemma NoSteps(tasks: seq<Task>)
    ensures Execute(tasks, []) == Init(tasks) && EventsOf(Init(tasks).events) == []
  {
  }

  /** One more choice of the scheduler. */
  lemma NextStep(tasks: seq<Task>, schedule: seq<Choice>, c: Choice)
    requires Enabled(tasks, Execute(tasks, schedule), c)
    ensures Execute(tasks, schedule + [c]) == Step(tasks, Execute(tasks, schedule), c)
    ensures EventsOf(Step(tasks, Execute(tasks, schedule), c).events) ==
            EventsOf(Execute(tasks, schedule).events) + StepEvents(tasks, Execute(tasks, schedule), c)
  {
    assert (schedule + [c])[..|schedule|] == schedule;
  }

  ghost function WorkLeft(tasks: seq<Task>, s: Sched): nat {
    if Shape(tasks, s) then Work(tasks, s) else 0
  }

  /** A step that can be taken whenever the phase is unfinished. */
  function SomeChoice(tasks: seq<Task>, s: Sched): (c: Choice)
    requires Inv(tasks, s) && s.current < |tasks|
    ensures Enabled(tasks, s, c)
  {
    if Enabled(tasks, s, Loop) then Loop else Worker(s.current)
  }

  lemma EmittedLegal(tasks: seq<Task>, s: Sched, c: Choice)
    requires Enabled(tasks, s, c) && Emitted(tasks, s, c).Some?
    ensures !Emitted(tasks, s, c).value.TurnEnd? && !Emitted(tasks, s, c).value.AgentEnd?
  {
  }

  /** Everything one step of the schedule keeps. */
  lemma StepKeeps(mode: ToolMode, ended: seq<Message>, response: AssistantMessage, first: seq<Message>,
                  tasks: seq<Task>, s: Sched, c: Choice)
    requires Inv(tasks, s) && Enabled(tasks, s, c)
    ensures Inv(tasks, Step(tasks, s, c)) && WorkLeft(tasks, Step(tasks, s, c)) < WorkLeft(tasks, s)
    ensures Step(tasks, s, c).current <= |tasks|
    ensures var before := ScheduleMonitor(ended, response, first, tasks, s);
            var after := ScheduleMonitor(ended, response, first, tasks, Step(tasks, s, c));
            var e := Emitted(tasks, s, c);
            && after == (if e.Some? then Next(mode, before, e.value) else before)
            && Lasting(EventsOf(Step(tasks, s, c).events)) ==
               Lasting(EventsOf(s.events)) + if e.Some? && !e.value.ToolUpdate? then [e.value] else []
  {
    hide Delivered, Streamed, Quiet, Step, Emitted, Enabled, Next, ScheduleMonitor, Lasting, EventsOf;
    StepInv(tasks, s, c);
    StepWorks(tasks, s, c);
    ScheduleStep(mode, ended, response, first, tasks, s, c);
    StepLasting(tasks, s, c);
  }

  lemma NoTasks()
    ensures IdsFrom([], 0) == multiset{}
  {
  }

  lemma ScheduleStarts(ended: seq<Message>, response: AssistantMessage, first: seq<Message>, tasks: seq<Task>)
    requires ToolCalls(response) != []
    ensures ScheduleMonitor(ended, response, first, tasks, Init(tasks))
            == PhaseMonitor(ended, response, |ToolCalls(response)|, IdsFrom(tasks, 0), first)
    ensures Lasting(EventsOf(Init(tasks).events)) == []
  {
    assert first + [] == first;
  }

  lemma ScheduleEnds(ended: seq<Message>, response: AssistantMessage, first: seq<Message>, tasks: seq<Task>, s: Sched)
    requires Inv(tasks, s) && s.current == |tasks| && ToolCalls(response) != []
    ensures ScheduleMonitor(ended, response, first, tasks, s)
            == PhaseMonitor(ended, response, |ToolCalls(response)|, multiset{}, first + s.results)
    ensures Lasting(EventsOf(s.events)) == Deliveries(tasks, |tasks|)
    ensures s.results == TaskResults(tasks, |tasks|)
  {
    hide Deliveries, ToolCalls, Lasting, EventsOf, UpdatesOf;
    assert Deliveries(tasks, |tasks|) + [] == Deliveries(tasks, |tasks|);
    assert ToolCalls(response)[|ToolCalls(response)|..] == [];
  }

  // ---------------------------------------------------------------- closing a turn

  lemma ResultsAreResults(w: World, calls: seq<ToolCall>, order: seq<nat>)
    requires forall i :: 0 <= i < |order| ==> order[i] < |calls|
    ensures forall m :: m in Results(w, calls, order) ==> m.ToolResult?
  {
  }

  /** After all calls of a phase the turn may end, and every call has its result. */
  lemma PhaseCloses(mode: ToolMode, ended: seq<Message>, response: AssistantMessage, trace: seq<Event>,
                    results: seq<Message>, w: World)
    requires !Failed(response) && ToolCalls(response) != []
    requires Run(mode, trace) == PhaseMonitor(ended, response, |ToolCalls(response)|, multiset{}, results)
    requires results == PhaseResults(mode, w, ToolCalls(response))
    ensures Next(mode, Run(mode, trace), TurnEnd(response, results)) == Gap(ended + results, true)
    ensures results != []
    ensures AnswersAll(response, results)
    ensures forall m :: m in results ==> m.ToolResult?
  {
    hide ToolCalls, Run, Results, PhaseOrder, Accounted, NextTalking, AnswersAll;
    AlwaysAccounted(mode, trace);
    ResultsAreResults(w, ToolCalls(response), PhaseOrder(mode, w, ToolCalls(response)));
    AllAnswered(ended, response, results);
    SomeAnswer(response, results);
  }

  lemma SomeAnswer(response: AssistantMessage, results: seq<Message>)
    requires !Failed(response) && ToolCalls(response) != [] && AnswersAll(response, results)
    ensures results != []
  {
    hide ToolCalls;
    assert |multiset(CallIds(ToolCalls(response)))| == |ToolCalls(response)|;
    assert |multiset(ResultIds(results))| == |results|;
  }

  lemma AllAnswered(ended: seq<Message>, response: AssistantMessage, results: seq<Message>)
    requires !Failed(response) && ToolCalls(response) != []
    requires Accounted(PhaseMonitor(ended, response, |ToolCalls(response)|, multiset{}, results))
    ensures AnswersAll(response, results)
  {
    hide ToolCalls;
    assert ToolCalls(response)[..|ToolCalls(response)|] == ToolCalls(response);
  }

  /** A failed response, or one without calls, ends its turn at once. */
  lemma NothingToAnswer(mode: ToolMode, ended: seq<Message>, response: AssistantMessage)
    requires Failed(response) || ToolCalls(response) == []
    ensures Next(mode, Talking(ended, Closed, Some(response)), TurnEnd(response, [])) == Gap(ended, false)
    ensures AnswersAll(response, [])
  {
    assert ResultIds([]) == [] && CallIds([]) == [];
  }
}
