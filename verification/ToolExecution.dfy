/** Preparing, executing and finalizing one tool call, and the order in which the two
    execution modes deliver results (packages/agent/src/agent-loop.ts). */
module ToolExecution {
  import opened Basics
  import opened Messages

  /** One tool execution: the partial results it streams, then what it returned or threw. */
  datatype Execution = Execution(updates: seq<ToolOutput>, outcome: Attempt<ToolOutput>)

  /** Tools and hooks are arbitrary functions of what they are given. The first argument is
      the position of the call in its response, so equal calls may behave differently. */
  datatype Tool = Tool(
    name: string,
    prepareArguments: Option<(nat, string) -> Attempt<string>>,
    validate: (nat, string) -> Attempt<string>,
    execute: (nat, string, string) -> Execution)

  datatype Verdict = Verdict(block: bool, reason: Option<string>)

  /** A beforeToolCall hook may also change the arguments in place. */
  datatype BeforeResult = BeforeResult(verdict: Option<Verdict>, args: string)

  datatype AfterResult = AfterResult(content: Option<string>, details: Option<string>, isError: Option<bool>)

  datatype Outcome = Outcome(output: ToolOutput, isError: bool)

  /** Everything a tool phase depends on besides the response. */
  datatype World = World(
    tools: seq<Tool>,
    beforeToolCall: Option<(nat, ToolCall, string) -> Attempt<BeforeResult>>,
    afterToolCall: Option<(nat, ToolCall, string, Outcome) -> Option<AfterResult>>)

  datatype Preparation = Prepared(tool: Tool, args: string) | Immediate(outcome: Outcome)

  function ErrorOutcome(message: string): Outcome {
    Outcome(ToolOutput(message, "{}"), true)
  }

  function FindTool(tools: seq<Tool>, name: string): Option<Tool> {
    if tools == [] then None
    else if tools[0].name == name then Some(tools[0])
    else FindTool(tools[1..], name)
  }

  /** prepareToolCall: a missing tool, bad arguments, a blocking or a throwing hook all end
      the call at once with an error result. */
  function Prepare(w: World, k: nat, call: ToolCall): Preparation {
    var found := FindTool(w.tools, call.name);
    if found.None? then Immediate(ErrorOutcome("Tool " + call.name + " not found"))
    else
      var raw := if found.value.prepareArguments.Some? then found.value.prepareArguments.value(k, call.arguments)
                 else Returned(call.arguments);
      if raw.Threw? then Immediate(ErrorOutcome(raw.message))
      else
        var validated := found.value.validate(k, raw.value);
        if validated.Threw? then Immediate(ErrorOutcome(validated.message))
        else if w.beforeToolCall.None? then Prepared(found.value, validated.value)
        else
          var before := w.beforeToolCall.value(k, call, validated.value);
          if before.Threw? then Immediate(ErrorOutcome(before.message))
          else if before.value.verdict.Some? && before.value.verdict.value.block then
            Immediate(ErrorOutcome(BlockReason(before.value.verdict.value)))
          else Prepared(found.value, before.value.args)
  }

  function BlockReason(v: Verdict): string {
    if v.reason.Some? && v.reason.value != "" then v.reason.value else "Tool execution was blocked"
  }

  /** What executePreparedToolCall gives: a throwing tool becomes an error result. */
  function Executed(w: World, k: nat, call: ToolCall): Outcome
    requires Prepare(w, k, call).Prepared?
  {
    var p := Prepare(w, k, call);
    match p.tool.execute(k, call.id, p.args).outcome
    case Returned(output) => Outcome(output, false)
    case Threw(message) => ErrorOutcome(message)
  }

  /** finalizeExecutedToolCall: afterToolCall overrides field by field. */
  function FinalizeExecutedToolCall(w: World, k: nat, call: ToolCall, prepared: Preparation, executed: Outcome): Outcome
    requires prepared.Prepared?
  {
    if w.afterToolCall.None? then executed
    else
      match w.afterToolCall.value(k, call, prepared.args, executed)
      case None => executed
      case Some(o) =>
        Outcome(ToolOutput(o.content.GetOr(executed.output.content), o.details.GetOr(executed.output.details)),
                o.isError.GetOr(executed.isError))
  }

  /** The outcome of the call at position k, fixed by the call and the world alone. */
  function OutcomeOf(w: World, k: nat, call: ToolCall): Outcome {
    match Prepare(w, k, call)
    case Immediate(outcome) => outcome
    case Prepared(_, _) => FinalizeExecutedToolCall(w, k, call, Prepare(w, k, call), Executed(w, k, call))
  }

  /** Tool i is the first with the name. */
  ghost predicate IsFirst(tools: seq<Tool>, name: string, i: nat) {
    i < |tools| && tools[i].name == name && forall j :: 0 <= j < i ==> tools[j].name != name
  }

  /** The tool found is the first of its name; none is found only if there is none. */
  lemma {:induction false} FindsFirst(tools: seq<Tool>, name: string)
    ensures match FindTool(tools, name)
            case None => forall i :: 0 <= i < |tools| ==> tools[i].name != name
            case Some(tool) =>
              exists i: nat :: IsFirst(tools, name, i) && tools[i] == tool
  {
    if tools != [] {
      if tools[0].name == name {
        assert IsFirst(tools, name, 0);
      } else {
        FindsFirst(tools[1..], name);
        if FindTool(tools, name).Some? {
          var i: nat :| IsFirst(tools[1..], name, i) && tools[1..][i] == FindTool(tools, name).value;
          assert forall j :: 1 <= j < i + 1 ==> tools[j] == tools[1..][j - 1];
          assert IsFirst(tools, name, i + 1);
        } else {
          assert forall j :: 1 <= j < |tools| ==> tools[j] == tools[1..][j - 1];
        }
      }
    }
  }

  // ---------------------------------------------------------------- how a call fares

  /** The arguments tool i makes of what the call gives, before it validates them. */
  ghost predicate Converts(w: World, k: nat, call: ToolCall, i: nat, raw: Attempt<string>)
    requires i < |w.tools|
  {
    match w.tools[i].prepareArguments
    case None => raw == Returned(call.arguments)
    case Some(convert) => raw == convert(k, call.arguments)
  }

  /** The call is of tool i, which accepts its arguments as args. */
  ghost predicate Accepted(w: World, k: nat, call: ToolCall, i: nat, args: string) {
    && IsFirst(w.tools, call.name, i)
    && exists raw: string :: Converts(w, k, call, i, Returned(raw)) && w.tools[i].validate(k, raw) == Returned(args)
  }

  /** The call is of no tool, or its tool does not accept its arguments, for the reason message. */
  ghost predicate Rejected(w: World, k: nat, call: ToolCall, message: string) {
    || ((forall i :: 0 <= i < |w.tools| ==> w.tools[i].name != call.name)
        && message == "Tool " + call.name + " not found")
    || exists i: nat :: IsFirst(w.tools, call.name, i) &&
         (Converts(w, k, call, i, Threw(message)) ||
          exists raw: string :: Converts(w, k, call, i, Returned(raw)) && w.tools[i].validate(k, raw) == Threw(message))
  }

  /** The beforeToolCall hook does not let the call through, for the reason message. */
  ghost predicate Blocked(w: World, k: nat, call: ToolCall, message: string) {
    exists i: nat, args: string ::
      Accepted(w, k, call, i, args) && w.beforeToolCall.Some? &&
      match w.beforeToolCall.value(k, call, args)
      case Threw(error) => message == error
      case Returned(before) =>
        before.verdict.Some? && before.verdict.value.block &&
        match before.verdict.value.reason
        case None => message == "Tool execution was blocked"
        case Some(reason) => message == if reason == "" then "Tool execution was blocked" else reason
  }

  /** The call is of tool i and lets it run, on args. */
  ghost predicate Allowed(w: World, k: nat, call: ToolCall, i: nat, args: string) {
    if w.beforeToolCall.None? then Accepted(w, k, call, i, args)
    else
      exists accepted: string :: Accepted(w, k, call, i, accepted) &&
        match w.beforeToolCall.value(k, call, accepted)
        case Threw(_) => false
        case Returned(before) =>
          args == before.args && (before.verdict.Some? ==> !before.verdict.value.block)
  }

  /** What a tool that ran gave: its output, or its error as an error result. */
  ghost predicate Gives(execution: Execution, o: Outcome) {
    match execution.outcome
    case Returned(output) => o == Outcome(output, false)
    case Threw(message) => o == Outcome(ToolOutput(message, "{}"), true)
  }

  /** What the afterToolCall hook makes of an outcome: each field it gives replaces the one
      there is, and no other changes. */
  ghost predicate Amended(after: Option<AfterResult>, given: Outcome, o: Outcome) {
    match after
    case None => o == given
    case Some(a) =>
      && (if a.content.Some? then o.output.content == a.content.value else o.output.content == given.output.content)
      && (if a.details.Some? then o.output.details == a.details.value else o.output.details == given.output.details)
      && (if a.isError.Some? then o.isError == a.isError.value else o.isError == given.isError)
  }

  lemma {:induction false} FirstIsFound(tools: seq<Tool>, name: string, i: nat)
    requires IsFirst(tools, name, i)
    ensures FindTool(tools, name) == Some(tools[i])
  {
    if i > 0 {
      assert tools[0].name != name;
      FirstIsFound(tools[1..], name, i - 1);
    }
  }

  /** A call that is rejected or blocked never runs its tool: its outcome is an error with the
      reason. */
  lemma RefusedFails(w: World, calls: seq<ToolCall>, k: nat, message: string)
    requires k < |calls| && (Rejected(w, k, calls[k], message) || Blocked(w, k, calls[k], message))
    ensures OutcomeOf(w, k, calls[k]) == Outcome(ToolOutput(message, "{}"), true)
    ensures IsImmediate(w, calls, k)
  {
    var call := calls[k];
    FindsFirst(w.tools, call.name);
    if i: nat :| IsFirst(w.tools, call.name, i) {
      FirstIsFound(w.tools, call.name, i);
      forall j: nat | IsFirst(w.tools, call.name, j) ensures i == j {
      }
    }
  }

  /** Two worlds that differ at most in what tools do when they run, and in the afterToolCall
      hook. */
  ghost predicate SameUntilRun(w: World, v: World) {
    && |w.tools| == |v.tools| && w.beforeToolCall == v.beforeToolCall
    && forall i :: 0 <= i < |w.tools| ==>
         && w.tools[i].name == v.tools[i].name && w.tools[i].validate == v.tools[i].validate
         && w.tools[i].prepareArguments == v.tools[i].prepareArguments
  }

  /** What a refused call gives does not depend on what its tool would do. */
  lemma RefusedIsBlind(w: World, v: World, calls: seq<ToolCall>, k: nat, message: string)
    requires k < |calls| && (Rejected(w, k, calls[k], message) || Blocked(w, k, calls[k], message))
    requires SameUntilRun(w, v)
    ensures IsImmediate(v, calls, k) && OutcomeOf(v, k, calls[k]) == OutcomeOf(w, k, calls[k])
  {
    hide Prepare, OutcomeOf, IsImmediate;
    var call := calls[k];
    assert forall i: nat :: IsFirst(w.tools, call.name, i) ==> IsFirst(v.tools, call.name, i);
    assert forall i: nat, raw :: i < |w.tools| && Converts(w, k, call, i, raw) ==> Converts(v, k, call, i, raw);
    assert forall i: nat, args :: Accepted(w, k, call, i, args) ==> Accepted(v, k, call, i, args);
    RefusedFails(w, calls, k, message);
    RefusedFails(v, calls, k, message);
  }

  /** A call that is accepted and not blocked runs its tool, and its outcome is what the tool
      gives, amended by the afterToolCall hook. */
  lemma AllowedRuns(w: World, calls: seq<ToolCall>, k: nat, i: nat, args: string)
    requires k < |calls| && Allowed(w, k, calls[k], i, args)
    ensures !IsImmediate(w, calls, k) && Prepare(w, k, calls[k]) == Prepared(w.tools[i], args)
    ensures exists given :: Gives(w.tools[i].execute(k, calls[k].id, args), given) &&
              match w.afterToolCall
              case None => OutcomeOf(w, k, calls[k]) == given
              case Some(after) => Amended(after(k, calls[k], args, given), given, OutcomeOf(w, k, calls[k]))
  {
    FirstIsFound(w.tools, calls[k].name, i);
    assert Gives(w.tools[i].execute(k, calls[k].id, args), Executed(w, k, calls[k]));
  }

  /** Every call is refused for one reason, or runs one tool. */
  lemma RefusedOrAllowed(w: World, calls: seq<ToolCall>, k: nat)
    requires k < |calls|
    ensures IsImmediate(w, calls, k) <==>
            exists message :: Rejected(w, k, calls[k], message) || Blocked(w, k, calls[k], message)
    ensures !IsImmediate(w, calls, k) <==> exists i: nat, args :: Allowed(w, k, calls[k], i, args)
  {
    hide Prepare, OutcomeOf, Rejected, Blocked, Allowed;
    if message :| Rejected(w, k, calls[k], message) || Blocked(w, k, calls[k], message) {
      RefusedFails(w, calls, k, message);
    }
    if i: nat, args :| Allowed(w, k, calls[k], i, args) {
      AllowedRuns(w, calls, k, i, args);
    }
    SomeFate(w, k, calls[k]);
  }

  lemma SomeFate(w: World, k: nat, call: ToolCall)
    ensures (exists message :: Rejected(w, k, call, message) || Blocked(w, k, call, message))
            || exists i: nat, args :: Allowed(w, k, call, i, args)
  {
    FindsFirst(w.tools, call.name);
    if FindTool(w.tools, call.name).None? {
      assert Rejected(w, k, call, "Tool " + call.name + " not found");
    } else {
      var i: nat :| IsFirst(w.tools, call.name, i);
      var raw := match w.tools[i].prepareArguments
        case None => Returned(call.arguments)
        case Some(convert) => convert(k, call.arguments);
      assert Converts(w, k, call, i, raw);
      if raw.Threw? {
        assert Rejected(w, k, call, raw.message);
      } else if w.tools[i].validate(k, raw.value).Threw? {
        assert Rejected(w, k, call, w.tools[i].validate(k, raw.value).message);
      } else {
        HookFate(w, k, call, i, w.tools[i].validate(k, raw.value).value);
      }
    }
  }

  lemma HookFate(w: World, k: nat, call: ToolCall, i: nat, args: string)
    requires Accepted(w, k, call, i, args)
    ensures (exists message :: Blocked(w, k, call, message)) || exists given :: Allowed(w, k, call, i, given)
  {
    hide Accepted;
    if w.beforeToolCall.None? {
      assert Allowed(w, k, call, i, args);
    } else {
      match w.beforeToolCall.value(k, call, args)
      case Threw(error) => assert Blocked(w, k, call, error);
      case Returned(before) =>
        if before.verdict.Some? && before.verdict.value.block {
          assert Blocked(w, k, call, BlockReason(before.verdict.value));
        } else {
          assert Allowed(w, k, call, i, before.args);
        }
    }
  }

  function ResultMessage(call: ToolCall, o: Outcome): Message {
    ToolResult(call.id, call.name, o.output, o.isError)
  }

  function ResultAt(w: World, calls: seq<ToolCall>, k: nat): Message
    requires k < |calls|
  {
    ResultMessage(calls[k], OutcomeOf(w, k, calls[k]))
  }

  predicate IsImmediate(w: World, calls: seq<ToolCall>, k: nat)
    requires k < |calls|
  {
    Prepare(w, k, calls[k]).Immediate?
  }

  // ---------------------------------------------------------------- delivery orders

  function Results(w: World, calls: seq<ToolCall>, order: seq<nat>): seq<Message>
    requires forall i :: 0 <= i < |order| ==> order[i] < |calls|
  {
    seq(|order|, i requires 0 <= i < |order| => ResultAt(w, calls, order[i]))
  }

  /** The positions below n, in source order. */
  function SourceOrder(n: nat): (r: seq<nat>)
    ensures |r| == n && forall i :: 0 <= i < n ==> r[i] == i
  {
    seq(n, i => i)
  }

  /** The positions below n whose call is immediate (or is not), in source order. */
  function Pick(w: World, calls: seq<ToolCall>, n: nat, immediate: bool): (r: seq<nat>)
    requires n <= |calls|
    ensures forall i :: 0 <= i < |r| ==> r[i] < n
  {
    if n == 0 then []
    else
      var rest := Pick(w, calls, n - 1, immediate);
      if IsImmediate(w, calls, n - 1) == immediate then rest + [n - 1] else rest
  }

  /** The delivery order of parallel mode: immediate outcomes first, then executed calls. */
  function ParallelOrder(w: World, calls: seq<ToolCall>): (r: seq<nat>)
    ensures forall i :: 0 <= i < |r| ==> r[i] < |calls|
  {
    Pick(w, calls, |calls|, true) + Pick(w, calls, |calls|, false)
  }

  /** Pick lists exactly the positions of its kind, ascending. */
  lemma PickSound(w: World, calls: seq<ToolCall>, n: nat, immediate: bool)
    requires n <= |calls|
    ensures var r := Pick(w, calls, n, immediate);
            && (forall i :: 0 <= i < |r| ==> r[i] < n && IsImmediate(w, calls, r[i]) == immediate)
            && (forall i, j :: 0 <= i < j < |r| ==> r[i] < r[j])
            && (forall k :: 0 <= k < n && IsImmediate(w, calls, k) == immediate ==> k in r)
  {
    hide IsImmediate, Pick;
    var r := Pick(w, calls, n, immediate);
    forall i | 0 <= i < |r| ensures IsImmediate(w, calls, r[i]) == immediate {
      PickKind(w, calls, n, immediate, i);
    }
    forall i, j | 0 <= i < j < |r| ensures r[i] < r[j] {
      PickAscends(w, calls, n, immediate, i, j);
    }
    PickComplete(w, calls, n, immediate);
  }

  lemma {:induction false} PickKind(w: World, calls: seq<ToolCall>, n: nat, immediate: bool, i: nat)
    requires n <= |calls| && i < |Pick(w, calls, n, immediate)|
    ensures IsImmediate(w, calls, Pick(w, calls, n, immediate)[i]) == immediate
  {
    hide IsImmediate;
    if i < |Pick(w, calls, n - 1, immediate)| {
      PickKind(w, calls, n - 1, immediate, i);
    }
  }

  lemma {:induction false} PickAscends(w: World, calls: seq<ToolCall>, n: nat, immediate: bool, i: nat, j: nat)
    requires n <= |calls| && i < j < |Pick(w, calls, n, immediate)|
    ensures Pick(w, calls, n, immediate)[i] < Pick(w, calls, n, immediate)[j]
  {
    hide IsImmediate;
    if j < |Pick(w, calls, n - 1, immediate)| {
      PickAscends(w, calls, n - 1, immediate, i, j);
    }
  }

  lemma {:induction false} PickComplete(w: World, calls: seq<ToolCall>, n: nat, immediate: bool)
    requires n <= |calls|
    ensures forall k :: 0 <= k < n && IsImmediate(w, calls, k) == immediate ==> k in Pick(w, calls, n, immediate)
  {
    hide IsImmediate;
    if n > 0 {
      PickComplete(w, calls, n - 1, immediate);
    }
  }

  lemma MultisetOfConcat(a: seq<nat>, b: seq<nat>)
    ensures multiset(a + b) == multiset(a) + multiset(b)
  {
  }

  /** Each position joins exactly one of the two lists. */
  lemma PickNext(w: World, calls: seq<ToolCall>, n: nat)
    requires 0 < n <= |calls|
    ensures var first, second := Pick(w, calls, n - 1, true), Pick(w, calls, n - 1, false);
            if IsImmediate(w, calls, n - 1)
            then Pick(w, calls, n, true) == first + [n - 1] && Pick(w, calls, n, false) == second
            else Pick(w, calls, n, true) == first && Pick(w, calls, n, false) == second + [n - 1]
  {
    hide IsImmediate;
  }

  /** One more position joins one of the two lists. */
  lemma CountsGrow(a: seq<nat>, b: seq<nat>, all: seq<nat>, k: nat)
    requires multiset(a) + multiset(b) == multiset(all)
    ensures multiset(a + [k]) + multiset(b) == multiset(all + [k])
    ensures multiset(a) + multiset(b + [k]) == multiset(all + [k])
  {
    MultisetOfConcat(a, [k]);
    MultisetOfConcat(b, [k]);
    MultisetOfConcat(all, [k]);
  }

  lemma SourceOrderNext(n: nat)
    requires n > 0
    ensures SourceOrder(n) == SourceOrder(n - 1) + [n - 1]
  {
  }

  lemma NothingPicked(w: World, calls: seq<ToolCall>)
    ensures Pick(w, calls, 0, true) == Pick(w, calls, 0, false) == SourceOrder(0) == []
  {
  }

  lemma {:induction false} PickCounts(w: World, calls: seq<ToolCall>, n: nat)
    requires n <= |calls|
    ensures multiset(Pick(w, calls, n, true)) + multiset(Pick(w, calls, n, false)) == multiset(SourceOrder(n))
    ensures |Pick(w, calls, n, true)| + |Pick(w, calls, n, false)| == n
  {
    hide IsImmediate, Pick, SourceOrder;
    if n == 0 {
      NothingPicked(w, calls);
    } else {
      PickCounts(w, calls, n - 1);
      SourceOrderNext(n);
      CountsGrow(Pick(w, calls, n - 1, true), Pick(w, calls, n - 1, false), SourceOrder(n - 1), n - 1);
      PickNext(w, calls, n);
    }
  }

  /** Both modes deliver every call exactly once. */
  lemma ParallelIsPermutation(w: World, calls: seq<ToolCall>)
    ensures multiset(ParallelOrder(w, calls)) == multiset(SourceOrder(|calls|))
    ensures |ParallelOrder(w, calls)| == |calls|
  {
    PickCounts(w, calls, |calls|);
    MultisetOfConcat(Pick(w, calls, |calls|, true), Pick(w, calls, |calls|, false));
  }

  /** Sequential results split into the parallel ones: taking first the results of the
      immediate calls and then those of the executed calls, each in sequential order. */
  function Select(w: World, calls: seq<ToolCall>, results: seq<Message>, n: nat, immediate: bool): seq<Message>
    requires n <= |calls| && n <= |results|
  {
    if n == 0 then []
    else Select(w, calls, results, n - 1, immediate) +
         if IsImmediate(w, calls, n - 1) == immediate then [results[n - 1]] else []
  }

  lemma {:induction false} SelectIsPick(w: World, calls: seq<ToolCall>, n: nat, immediate: bool)
    requires n <= |calls|
    ensures Select(w, calls, Results(w, calls, SourceOrder(|calls|)), n, immediate)
            == Results(w, calls, Pick(w, calls, n, immediate))
  {
    hide IsImmediate, ResultAt;
    if n > 0 {
      SelectIsPick(w, calls, n - 1, immediate);
    }
  }

  /** Parallel results are the stable partition of the sequential results: immediate
      outcomes first, then executed ones. */
  lemma ParallelIsStablePartition(w: World, calls: seq<ToolCall>)
    ensures var sequential := Results(w, calls, SourceOrder(|calls|));
            Results(w, calls, ParallelOrder(w, calls))
            == Select(w, calls, sequential, |calls|, true) + Select(w, calls, sequential, |calls|, false)
  {
    hide IsImmediate, ResultAt, Select;
    SelectIsPick(w, calls, |calls|, true);
    SelectIsPick(w, calls, |calls|, false);
  }

  /** An immediate outcome comes later in the response than a call that was executed. */
  ghost predicate ImmediateAfterPrepared(w: World, calls: seq<ToolCall>) {
    exists i, j :: 0 <= i < j < |calls| && !IsImmediate(w, calls, i) && IsImmediate(w, calls, j)
  }

  /** An ascending list of n positions below n is the source order. */
  lemma {:induction false} AscendingAt(order: seq<nat>, k: nat)
    requires k < |order|
    requires forall i :: 0 <= i < |order| ==> order[i] < |order|
    requires forall i, j :: 0 <= i < j < |order| ==> order[i] < order[j]
    ensures order[k] == k
  {
    AtLeast(order, k);
    AtMost(order, k);
  }

  lemma {:induction false} AtLeast(order: seq<nat>, k: nat)
    requires k < |order|
    requires forall i, j :: 0 <= i < j < |order| ==> order[i] < order[j]
    ensures order[k] >= k
  {
    if k > 0 {
      AtLeast(order, k - 1);
    }
  }

  lemma {:induction false} AtMost(order: seq<nat>, k: nat)
    requires k < |order|
    requires forall i :: 0 <= i < |order| ==> order[i] < |order|
    requires forall i, j :: 0 <= i < j < |order| ==> order[i] < order[j]
    ensures order[k] <= k
    decreases |order| - k
  {
    if k + 1 < |order| {
      AtMost(order, k + 1);
    }
  }

  lemma ImmediateIsPrefix(w: World, calls: seq<ToolCall>, k: nat)
    requires ParallelOrder(w, calls) == SourceOrder(|calls|) && k < |calls|
    ensures IsImmediate(w, calls, k) <==> k < |Pick(w, calls, |calls|, true)|
  {
    hide IsImmediate;
    var first, second := Pick(w, calls, |calls|, true), Pick(w, calls, |calls|, false);
    PickSound(w, calls, |calls|, true);
    PickSound(w, calls, |calls|, false);
    assert (first + second)[k] == k;
    if k < |first| {
      assert first[k] == k;
    } else {
      assert second[k - |first|] == k;
    }
  }

  /** Two ascending lists, every entry of the first below every entry of the second. */
  lemma MergeAscending(first: seq<nat>, second: seq<nat>, n: nat)
    requires |first| + |second| == n
    requires forall i :: 0 <= i < |first| ==> first[i] < n
    requires forall i :: 0 <= i < |second| ==> second[i] < n
    requires forall i, j :: 0 <= i < j < |first| ==> first[i] < first[j]
    requires forall i, j :: 0 <= i < j < |second| ==> second[i] < second[j]
    requires forall i, j :: 0 <= i < |first| && 0 <= j < |second| ==> first[i] < second[j]
    ensures first + second == SourceOrder(n)
  {
    forall k | 0 <= k < n ensures (first + second)[k] == k {
      AscendingAt(first + second, k);
    }
  }

  lemma SourceOrderIf(w: World, calls: seq<ToolCall>)
    requires !ImmediateAfterPrepared(w, calls)
    ensures ParallelOrder(w, calls) == SourceOrder(|calls|)
  {
    hide IsImmediate;
    var first, second := Pick(w, calls, |calls|, true), Pick(w, calls, |calls|, false);
    PickCounts(w, calls, |calls|);
    PickSound(w, calls, |calls|, true);
    PickSound(w, calls, |calls|, false);
    forall i, j | 0 <= i < |first| && 0 <= j < |second| ensures first[i] < second[j] {
      ImmediateComesFirst(w, calls, first[i], second[j]);
    }
    MergeAscending(first, second, |calls|);
  }

  lemma ImmediateComesFirst(w: World, calls: seq<ToolCall>, i: nat, j: nat)
    requires !ImmediateAfterPrepared(w, calls)
    requires i < |calls| && j < |calls| && IsImmediate(w, calls, i) && !IsImmediate(w, calls, j)
    ensures i < j
  {
  }

  /** Exactly when parallel mode delivers in assistant source order, as types.ts says it
      always does: when no immediate outcome follows a prepared call. */
  lemma SourceOrderIff(w: World, calls: seq<ToolCall>)
    ensures ParallelOrder(w, calls) == SourceOrder(|calls|) <==> !ImmediateAfterPrepared(w, calls)
  {
    hide IsImmediate, ParallelOrder;
    if !ImmediateAfterPrepared(w, calls) {
      SourceOrderIf(w, calls);
    } else if ParallelOrder(w, calls) == SourceOrder(|calls|) {
      var i, j :| 0 <= i < j < |calls| && !IsImmediate(w, calls, i) && IsImmediate(w, calls, j);
      ImmediateIsPrefix(w, calls, i);
      ImmediateIsPrefix(w, calls, j);
    }
  }

  lemma TwoCalls(w: World, calls: seq<ToolCall>)
    requires |calls| == 2 && !IsImmediate(w, calls, 0) && IsImmediate(w, calls, 1)
    ensures ParallelOrder(w, calls) == [1, 0]
  {
    hide IsImmediate;
    assert Pick(w, calls, 0, true) == [] && Pick(w, calls, 0, false) == [];
    assert Pick(w, calls, 1, true) == [] && Pick(w, calls, 1, false) == [0];
    assert Pick(w, calls, 2, true) == [1] && Pick(w, calls, 2, false) == [0];
  }

  function EchoTool(): Tool {
    Tool("echo", None, (k, args) => Returned(args), (k, id, args) => Execution([], Returned(ToolOutput(args, "{}"))))
  }

  /** Source order fails on a call that runs followed by a call of an unknown tool: the
      second call's result is delivered first. */
  lemma SourceOrderCounterexample()
    ensures var w := World([EchoTool()], None, None);
            var calls := [ToolCall("a", "echo", "hi"), ToolCall("b", "missing", "{}")];
            ParallelOrder(w, calls) == [1, 0] && ParallelOrder(w, calls) != SourceOrder(|calls|)
  {
    hide ParallelOrder;
    var w := World([EchoTool()], None, None);
    var calls := [ToolCall("a", "echo", "hi"), ToolCall("b", "missing", "{}")];
    assert FindTool(w.tools, "echo") == Some(EchoTool()) && FindTool(w.tools, "missing") == None;
    TwoCalls(w, calls);
    assert SourceOrder(|calls|)[0] == 0;
  }
}
