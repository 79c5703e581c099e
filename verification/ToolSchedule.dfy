/** The concurrent part of executeToolCallsParallel (packages/agent/src/agent-loop.ts) as a
    small-step system: every prepared call runs on its own, streaming partial results,
    while the loop awaits and finalizes the calls one after the other. The scheduler may
    interleave the steps in any way. */
module ToolSchedule {
  import opened Basics
  import opened Messages
  import opened ToolExecution

  /** A running call: the partial results it will stream and the outcome it will have. */
  datatype Task = Task(call: ToolCall, updates: seq<ToolOutput>, outcome: Outcome)

  /** An execution streams its updates, settles, waits for the listeners of its updates,
      and is then ready to be finalized. */
  datatype Status = Executing(sent: nat) | Draining | Ready

  /** How far the loop is with the call at current. */
  datatype Stage = Awaiting | EndSent | StartSent

  datatype Tagged = Tagged(task: nat, event: Event)

  datatype Sched = Sched(status: seq<Status>, current: nat, stage: Stage, events: seq<Tagged>, results: seq<Message>)

  /** Whose turn it is: the execution of a call, or the finalizing loop. */
  datatype Choice = Worker(task: nat) | Loop

  function Init(tasks: seq<Task>): Sched {
    Sched(seq(|tasks|, i => Executing(0)), 0, Awaiting, [], [])
  }

  predicate Done(tasks: seq<Task>, s: Sched) {
    s.current == |tasks|
  }

  predicate Enabled(tasks: seq<Task>, s: Sched, c: Choice) {
    match c
    case Worker(k) => k < |tasks| && k < |s.status| && !s.status[k].Ready?
    case Loop =>
      s.current < |tasks| && s.current < |s.status| && (s.stage.Awaiting? ==> s.status[s.current].Ready?)
  }

  function CallUpdate(t: Task, i: nat): Event
    requires i < |t.updates|
  {
    ToolUpdate(t.call.id, t.call.name, t.call.arguments, t.updates[i])
  }

  function CallEnd(t: Task): Event {
    ToolEnd(t.call.id, t.call.name, t.outcome.output, t.outcome.isError)
  }

  function Result(t: Task): Message {
    ResultMessage(t.call, t.outcome)
  }

  /** The event a step emits, if any. */
  function Emitted(tasks: seq<Task>, s: Sched, c: Choice): Option<Event>
    requires Enabled(tasks, s, c)
  {
    match c
    case Worker(k) =>
      if s.status[k].Executing? && s.status[k].sent < |tasks[k].updates|
      then Some(CallUpdate(tasks[k], s.status[k].sent)) else None
    case Loop =>
      var t := tasks[s.current];
      Some(match s.stage
           case Awaiting => CallEnd(t)
           case EndSent => MessageStart(Result(t))
           case StartSent => MessageEnd(Result(t)))
  }

  function Step(tasks: seq<Task>, s: Sched, c: Choice): Sched
    requires Enabled(tasks, s, c)
  {
    var e := Emitted(tasks, s, c);
    match c
    case Worker(k) =>
      if e.Some? then
        s.(status := s.status[k := Executing(s.status[k].sent + 1)], events := s.events + [Tagged(k, e.value)])
      else s.(status := s.status[k := if s.status[k].Executing? then Draining else Ready])
    case Loop =>
      var s' := s.(events := s.events + [Tagged(s.current, e.value)]);
      match s.stage
      case Awaiting => s'.(stage := EndSent)
      case EndSent => s'.(stage := StartSent)
      case StartSent =>
        s'.(stage := Awaiting, current := s.current + 1, results := s.results + [Result(tasks[s.current])])
  }

  /** The state after a schedule; a choice that is not enabled is passed over. */
  function Execute(tasks: seq<Task>, schedule: seq<Choice>): Sched {
    if schedule == [] then Init(tasks)
    else
      var s := Execute(tasks, schedule[..|schedule| - 1]);
      var c := schedule[|schedule| - 1];
      if Enabled(tasks, s, c) then Step(tasks, s, c) else s
  }

  // ---------------------------------------------------------------- what a trace shows

  /** A schedule's events without their tags. */
  function EventsOf(events: seq<Tagged>): seq<Event> {
    seq(|events|, i requires 0 <= i < |events| => events[i].event)
  }

  lemma EventsNext(events: seq<Tagged>, t: Tagged)
    ensures EventsOf(events + [t]) == EventsOf(events) + [t.event]
  {
  }

  /** The partial updates of one call, in order. */
  function UpdatesOf(events: seq<Tagged>, k: nat): seq<Event> {
    if events == [] then []
    else
      var t := events[|events| - 1];
      UpdatesOf(events[..|events| - 1], k) + if t.task == k && t.event.ToolUpdate? then [t.event] else []
  }

  /** Every update of a call precedes its tool_execution_end. */
  ghost predicate UpdatesBeforeEnd(events: seq<Tagged>) {
    forall i, j :: 0 <= i < j < |events| && events[i].event.ToolEnd? && events[j].event.ToolUpdate? ==>
      events[i].task != events[j].task
  }

  function OutcomeEvents(t: Task): seq<Event> {
    [CallEnd(t), MessageStart(Result(t)), MessageEnd(Result(t))]
  }

  /** What the first n calls leave in the trace, whatever the schedule. */
  function Deliveries(tasks: seq<Task>, n: nat): seq<Event>
    requires n <= |tasks|
  {
    if n == 0 then [] else Deliveries(tasks, n - 1) + OutcomeEvents(tasks[n - 1])
  }

  function TaskResults(tasks: seq<Task>, n: nat): seq<Message>
    requires n <= |tasks|
  {
    seq(n, i requires 0 <= i < n => Result(tasks[i]))
  }

  function CallUpdates(t: Task, n: nat): seq<Event>
    requires n <= |t.updates|
  {
    seq(n, i requires 0 <= i < n => CallUpdate(t, i))
  }

  function StageCount(stage: Stage): nat {
    match stage
    case Awaiting => 0
    case EndSent => 1
    case StartSent => 2
  }

  function Sent(t: Task, status: Status): nat {
    if status.Executing? then status.sent else |t.updates|
  }

  // ---------------------------------------------------------------- invariants

  ghost predicate Shape(tasks: seq<Task>, s: Sched) {
    && |s.status| == |tasks| && s.current <= |tasks|
    && (forall k :: 0 <= k < |tasks| ==> Sent(tasks[k], s.status[k]) <= |tasks[k].updates|)
    && (forall k :: 0 <= k < s.current ==> s.status[k].Ready?)
    && (!s.stage.Awaiting? ==> s.current < |tasks| && s.status[s.current].Ready?)
  }

  /** The lasting trace and the results depend on the loop's position only. */
  ghost predicate Delivered(tasks: seq<Task>, s: Sched)
    requires Shape(tasks, s)
  {
    && s.results == TaskResults(tasks, s.current)
    && Lasting(EventsOf(s.events)) == Deliveries(tasks, s.current) +
         if s.current < |tasks| then OutcomeEvents(tasks[s.current])[..StageCount(s.stage)] else []
  }

  /** Each call has streamed a prefix of its own updates, in order. */
  ghost predicate Streamed(tasks: seq<Task>, s: Sched)
    requires Shape(tasks, s)
  {
    forall k :: 0 <= k < |tasks| ==>
      UpdatesOf(s.events, k) == CallUpdates(tasks[k], Sent(tasks[k], s.status[k]))
  }

  /** A call whose end is out is ready, so it streams no more. */
  ghost predicate Quiet(tasks: seq<Task>, s: Sched)
    requires Shape(tasks, s)
  {
    && (forall i :: 0 <= i < |s.events| ==> s.events[i].task < |tasks|)
    && (forall i :: 0 <= i < |s.events| && s.events[i].event.ToolEnd? ==> s.status[s.events[i].task].Ready?)
    && UpdatesBeforeEnd(s.events)
  }

  ghost predicate Inv(tasks: seq<Task>, s: Sched) {
    Shape(tasks, s) && Delivered(tasks, s) && Streamed(tasks, s) && Quiet(tasks, s)
  }

  lemma InitInv(tasks: seq<Task>)
    ensures Inv(tasks, Init(tasks))
  {
  }

  lemma StepShape(tasks: seq<Task>, s: Sched, c: Choice)
    requires Shape(tasks, s) && Enabled(tasks, s, c)
    ensures Shape(tasks, Step(tasks, s, c))
  {
  }

  lemma StepDelivered(tasks: seq<Task>, s: Sched, c: Choice)
    requires Shape(tasks, s) && Delivered(tasks, s) && Enabled(tasks, s, c)
    ensures Shape(tasks, Step(tasks, s, c)) && Delivered(tasks, Step(tasks, s, c))
  {
    StepShape(tasks, s, c);
    StepLasting(tasks, s, c);
    hide Lasting, EventsOf;
    if c.Loop? {
      LoopDelivered(tasks, s);
    } else {
      var e := Emitted(tasks, s, c);
      assert e.Some? ==> e.value.ToolUpdate?;
      assert Lasting(EventsOf(s.events)) + [] == Lasting(EventsOf(s.events));
    }
  }

  /** What a step adds to the lasting trace. */
  lemma StepLasting(tasks: seq<Task>, s: Sched, c: Choice)
    requires Enabled(tasks, s, c)
    ensures var e := Emitted(tasks, s, c);
            Lasting(EventsOf(Step(tasks, s, c).events)) ==
            Lasting(EventsOf(s.events)) + if e.Some? && !e.value.ToolUpdate? then [e.value] else []
  {
    hide Lasting, EventsOf;
    var e := Emitted(tasks, s, c);
    if e.Some? {
      EventsNext(s.events, Tagged(if c.Loop? then s.current else c.task, e.value));
      LastingNext(EventsOf(s.events), e.value);
    } else {
      assert Lasting(EventsOf(s.events)) + [] == Lasting(EventsOf(s.events));
    }
  }

  lemma LoopDelivered(tasks: seq<Task>, s: Sched)
    requires Shape(tasks, s) && Delivered(tasks, s) && Enabled(tasks, s, Loop)
    requires Shape(tasks, Step(tasks, s, Loop))
    requires Lasting(EventsOf(Step(tasks, s, Loop).events)) ==
             Lasting(EventsOf(s.events)) + [Emitted(tasks, s, Loop).value]
    ensures Delivered(tasks, Step(tasks, s, Loop))
  {
    hide Lasting, EventsOf, Deliveries;
    var s' := Step(tasks, s, Loop);
    var t := tasks[s.current];
    if s.stage.StartSent? {
      DeliveriesNext(tasks, s.current);
      assert OutcomeEvents(t)[..2] + [MessageEnd(Result(t))] == OutcomeEvents(t);
      assert s'.results == TaskResults(tasks, s'.current);
      assert s'.current < |tasks| ==> OutcomeEvents(tasks[s'.current])[..0] == [];
    } else {
      var n := StageCount(s.stage);
      assert OutcomeEvents(t)[..n] + [OutcomeEvents(t)[n]] == OutcomeEvents(t)[..n + 1];
    }
  }

  lemma DeliveriesNext(tasks: seq<Task>, n: nat)
    requires n < |tasks|
    ensures Deliveries(tasks, n + 1) == Deliveries(tasks, n) + OutcomeEvents(tasks[n])
  {
  }

  lemma StepStreamed(tasks: seq<Task>, s: Sched, c: Choice)
    requires Shape(tasks, s) && Streamed(tasks, s) && Enabled(tasks, s, c)
    ensures Shape(tasks, Step(tasks, s, c)) && Streamed(tasks, Step(tasks, s, c))
  {
    StepShape(tasks, s, c);
    var s' := Step(tasks, s, c);
    if Emitted(tasks, s, c).Some? {
      assert s'.events[..|s'.events| - 1] == s.events;
    }
  }

  lemma StepQuiet(tasks: seq<Task>, s: Sched, c: Choice)
    requires Shape(tasks, s) && Quiet(tasks, s) && Enabled(tasks, s, c)
    ensures Shape(tasks, Step(tasks, s, c)) && Quiet(tasks, Step(tasks, s, c))
  {
    StepShape(tasks, s, c);
  }

  lemma StepInv(tasks: seq<Task>, s: Sched, c: Choice)
    requires Inv(tasks, s) && Enabled(tasks, s, c)
    ensures Inv(tasks, Step(tasks, s, c))
  {
    hide Delivered, Streamed, Quiet;
    StepDelivered(tasks, s, c);
    StepStreamed(tasks, s, c);
    StepQuiet(tasks, s, c);
  }

  /** Every interleaving keeps the invariants. */
  lemma {:induction false} ExecuteInv(tasks: seq<Task>, schedule: seq<Choice>)
    ensures Inv(tasks, Execute(tasks, schedule))
  {
    hide Inv, Enabled, Step;
    if schedule == [] {
      InitInv(tasks);
    } else {
      var init, c := schedule[..|schedule| - 1], schedule[|schedule| - 1];
      ExecuteInv(tasks, init);
      if Enabled(tasks, Execute(tasks, init), c) {
        StepInv(tasks, Execute(tasks, init), c);
      }
    }
  }

  // ---------------------------------------------------------------- theorems

  /** Schedule independence: whatever the interleaving, a finished phase returns the same
      results and leaves the same trace once partial updates are removed, both fixed by
      each call's own outcome; and each call has streamed exactly its own updates, in
      order, all before its end. */
  lemma ScheduleIndependence(tasks: seq<Task>, schedule: seq<Choice>)
    requires Done(tasks, Execute(tasks, schedule))
    ensures var s := Execute(tasks, schedule);
            && s.results == TaskResults(tasks, |tasks|)
            && Lasting(EventsOf(s.events)) == Deliveries(tasks, |tasks|)
            && (forall k :: 0 <= k < |tasks| ==> UpdatesOf(s.events, k) == CallUpdates(tasks[k], |tasks[k].updates|))
            && UpdatesBeforeEnd(s.events)
  {
    ExecuteInv(tasks, schedule);
  }

  /** An unfinished phase never deadlocks. */
  lemma Progress(tasks: seq<Task>, schedule: seq<Choice>) returns (c: Choice)
    requires !Done(tasks, Execute(tasks, schedule))
    ensures Enabled(tasks, Execute(tasks, schedule), c)
  {
    ExecuteInv(tasks, schedule);
    var s := Execute(tasks, schedule);
    c := if Enabled(tasks, s, Loop) then Loop else Worker(s.current);
  }

  /** Steps an execution still has to take. */
  function TaskWork(t: Task, status: Status): nat {
    match status
    case Executing(sent) => 2 + if sent <= |t.updates| then |t.updates| - sent else 0
    case Draining => 1
    case Ready => 0
  }

  function TotalWork(tasks: seq<Task>, status: seq<Status>): nat
    requires |tasks| == |status|
  {
    if tasks == [] then 0
    else TotalWork(tasks[..|tasks| - 1], status[..|status| - 1]) + TaskWork(tasks[|tasks| - 1], status[|tasks| - 1])
  }

  ghost function Work(tasks: seq<Task>, s: Sched): nat
    requires Shape(tasks, s)
  {
    TotalWork(tasks, s.status) + 3 * (|tasks| - s.current) + 2 - StageCount(s.stage)
  }

  lemma {:induction false} TotalWorkUpdate(tasks: seq<Task>, status: seq<Status>, k: nat, next: Status)
    requires |tasks| == |status| && k < |tasks|
    ensures TotalWork(tasks, status[k := next]) - TotalWork(tasks, status)
            == TaskWork(tasks[k], next) - TaskWork(tasks[k], status[k])
  {
    var n := |tasks| - 1;
    if k < n {
      TotalWorkUpdate(tasks[..n], status[..n], k, next);
      assert status[k := next][..n] == status[..n][k := next];
    } else {
      assert status[k := next][..n] == status[..n];
    }
  }

  /** Every step uses up work, so every interleaving ends after finitely many steps. */
  lemma StepWorks(tasks: seq<Task>, s: Sched, c: Choice)
    requires Shape(tasks, s) && Enabled(tasks, s, c)
    ensures Shape(tasks, Step(tasks, s, c)) && Work(tasks, Step(tasks, s, c)) < Work(tasks, s)
  {
    StepShape(tasks, s, c);
    if c.Worker? {
      TotalWorkUpdate(tasks, s.status, c.task, Step(tasks, s, c).status[c.task]);
    }
  }
}
