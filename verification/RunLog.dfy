/** The log of a run of the agent loop: which queues it polled, what it sent to the model,
    what came back. The rules of runLoop (packages/agent/src/agent-loop.ts) as an order on
    log entries, and what every log that keeps them satisfies. */
module RunLog {
  import opened Basics
  import opened Messages
  import opened PendingQueue
  import opened Grammar

  datatype Entry =
    | Polled(mode: QueueMode, waiting: seq<Message>, messages: seq<Message>)           // getSteeringMessages
    | PolledFollowUps(mode: QueueMode, waiting: seq<Message>, messages: seq<Message>)  // getFollowUpMessages
    | Asked(context: seq<Message>)                              // a model request and its context
    | Answered(response: AssistantMessage, results: seq<Message>)

  function Last<T>(s: seq<T>): T
    requires s != []
  {
    s[|s| - 1]
  }

  predicate HasCalls(e: Entry) {
    e.Answered? && ToolCalls(e.response) != []
  }

  /** The messages an entry adds to the conversation, now or before the next request. */
  function Adds(e: Entry): seq<Message> {
    match e
    case Polled(_, _, ms) => ms
    case PolledFollowUps(_, _, ms) => ms
    case Asked(_) => []
    case Answered(r, results) => [r] + results
  }

  function MessagesOf(log: seq<Entry>): seq<Message> {
    if log == [] then [] else MessagesOf(log[..|log| - 1]) + Adds(Last(log))
  }

  /** What was drained from the steering queue, and from the follow-up queue. */
  function SteeringOf(log: seq<Entry>): seq<Message> {
    if log == [] then []
    else SteeringOf(log[..|log| - 1]) + if Last(log).Polled? then Last(log).messages else []
  }

  function FollowUpsOf(log: seq<Entry>): seq<Message> {
    if log == [] then []
    else FollowUpsOf(log[..|log| - 1]) + if Last(log).PolledFollowUps? then Last(log).messages else []
  }

  predicate AllResults(results: seq<Message>) {
    forall r :: r in results ==> r.ToolResult?
  }

  /** The loop has reason to send another request: it is the first, or tool results are
      waiting, or messages were just drained. */
  predicate MayAsk(log: seq<Entry>) {
    && log != []
    && match Last(log)
       case Polled(_, _, ms) => |log| == 1 || ms != [] || HasCalls(log[|log| - 2])
       case PolledFollowUps(_, _, ms) => ms != []
       case _ => false
  }

  /** When the next entry may come after log, and what it must say. base is the context
      before anything the log adds. */
  ghost predicate MayFollow(base: seq<Message>, log: seq<Entry>, e: Entry) {
    match e
    case Polled(mode, waiting, ms) =>
      if log == [] then ms == [] || ms == Drained(mode, waiting)  // the first poll may be skipped
      else ms == Drained(mode, waiting) && Last(log).Answered? && !Failed(Last(log).response)
    case PolledFollowUps(mode, waiting, ms) =>
      && ms == Drained(mode, waiting)
      && |log| >= 2 && Last(log).Polled? && Last(log).messages == []
      && log[|log| - 2].Answered? && !HasCalls(log[|log| - 2])
    case Asked(context) => MayAsk(log) && context == base + MessagesOf(log)
    case Answered(r, results) => log != [] && Last(log).Asked? && AnswersAll(r, results) && AllResults(results)
  }

  ghost predicate WellOrdered(base: seq<Message>, log: seq<Entry>) {
    log == [] || (WellOrdered(base, log[..|log| - 1]) && MayFollow(base, log[..|log| - 1], Last(log)))
  }

  /** The log of a run that has ended: on a failed response, or with both queues empty. */
  predicate Finished(log: seq<Entry>) {
    log != [] &&
    match Last(log)
    case Answered(r, _) => Failed(r)
    case PolledFollowUps(_, _, ms) => ms == []
    case _ => false
  }

  lemma Extend(base: seq<Message>, log: seq<Entry>, e: Entry)
    requires WellOrdered(base, log) && MayFollow(base, log, e)
    ensures WellOrdered(base, log + [e])
    ensures MessagesOf(log + [e]) == MessagesOf(log) + Adds(e)
    ensures SteeringOf(log + [e]) == SteeringOf(log) + if e.Polled? then e.messages else []
    ensures FollowUpsOf(log + [e]) == FollowUpsOf(log) + if e.PolledFollowUps? then e.messages else []
  {
    assert (log + [e])[..|log|] == log;
  }

  lemma {:induction false} EntryAt(base: seq<Message>, log: seq<Entry>, i: nat)
    requires WellOrdered(base, log) && i < |log|
    ensures MayFollow(base, log[..i], log[i]) && WellOrdered(base, log[..i])
    decreases |log|
  {
    if i < |log| - 1 {
      EntryAt(base, log[..|log| - 1], i);
      assert log[..|log| - 1][..i] == log[..i];
    }
  }

  lemma MessagesUpTo(log: seq<Entry>, i: nat)
    requires i < |log|
    ensures MessagesOf(log[..i + 1]) == MessagesOf(log[..i]) + Adds(log[i])
  {
    assert log[..i + 1][..i] == log[..i];
  }

  /** What may stand next to what. */
  lemma Neighbours(base: seq<Message>, log: seq<Entry>, i: nat)
    requires WellOrdered(base, log) && 0 < i < |log|
    ensures log[i].Answered? <==> log[i - 1].Asked?
    ensures log[i].Polled? <==> log[i - 1].Answered?
    ensures log[i].Polled? || log[i].PolledFollowUps? ==> log[i].messages == Drained(log[i].mode, log[i].waiting)
    ensures log[i].PolledFollowUps? ==>
              && i >= 2 && log[i - 1].Polled? && log[i - 1].messages == []
              && log[i - 2].Answered? && ToolCalls(log[i - 2].response) == []
    ensures log[i].Polled? ==> !Failed(log[i - 1].response)
  {
    hide AnswersAll, ToolCalls, MessagesOf;
    EntryAt(base, log, i);
    assert Last(log[..i]) == log[i - 1];
    EntryAt(base, log, i - 1);
  }

  /** A poll of a run, its first one apart, takes everything that waits in mode all, and exactly
      the oldest message, if there is one, in mode one-at-a-time. */
  lemma PollTakes(base: seq<Message>, log: seq<Entry>, i: nat)
    requires WellOrdered(base, log) && 0 < i < |log| && (log[i].Polled? || log[i].PolledFollowUps?)
    ensures log[i].mode == All ==> log[i].messages == log[i].waiting
    ensures log[i].mode == OneAtATime && log[i].waiting != [] ==> log[i].messages == [log[i].waiting[0]]
    ensures log[i].waiting == [] ==> log[i].messages == []
  {
    hide Drained, WellOrdered;
    Neighbours(base, log, i);
    DrainedIs(log[i].mode, log[i].waiting);
  }

  /** A response that is an error or was aborted runs no tools and ends its run: it is the last
      entry of the log and has no results. A finished run's last answer, if the log ends in one,
      is such a response. */
  lemma FailureEndsRun(base: seq<Message>, log: seq<Entry>, i: nat)
    requires WellOrdered(base, log) && i < |log| && log[i].Answered?
    ensures log[i].response.stopReason == Error || log[i].response.stopReason == Aborted ==>
              i == |log| - 1 && log[i].results == [] && Finished(log)
    ensures Finished(log) && i == |log| - 1 ==>
              log[i].response.stopReason == Error || log[i].response.stopReason == Aborted
  {
    hide WellOrdered, MessagesOf, ToolCalls, CallIds, ResultIds;
    EntryAt(base, log, i);
    if i + 1 < |log| {
      Neighbours(base, log, i + 1);
    }
  }

  // ---------------------------------------------------------------- pairing

  lemma {:induction false} MessagesPrefix(log: seq<Entry>, i: nat, j: nat)
    requires i <= j <= |log|
    ensures MessagesOf(log[..i]) <= MessagesOf(log[..j])
    decreases j
  {
    hide MessagesOf, Adds;
    if i < j {
      MessagesPrefix(log, i, j - 1);
      MessagesUpTo(log, j - 1);
    }
  }

  /** The responses and results stand in ms, from position p on, without a gap. */
  ghost predicate StandsAt(response: AssistantMessage, results: seq<Message>, ms: seq<Message>, p: nat) {
    p + 1 + |results| <= |ms| && ms[p] == response && ms[p + 1..p + 1 + |results|] == results
  }

  /** Every response the run got before request i stands in the context of that request, did
      not fail, and is followed there at once by exactly one result per call block of its
      content. */
  lemma {:induction false} RequestsArePaired(base: seq<Message>, log: seq<Entry>, i: nat, j: nat)
    requires WellOrdered(base, log) && j < i < |log| && log[i].Asked? && log[j].Answered?
    ensures StandsAt(log[j].response, log[j].results, log[i].context, |base| + |MessagesOf(log[..j])|)
    ensures multiset(ResultIds(log[j].results)) == multiset(CallIds(ToolCalls(log[j].response)))
    ensures AnswersBlocks(log[j].response.content, log[j].results)
    ensures !Failed(log[j].response) && AllResults(log[j].results)
  {
    hide ToolCalls, MessagesOf, WellOrdered;
    EntryAt(base, log, i);
    EntryAt(base, log, j);
    EntryAt(base, log, j + 1);
    assert log[..j + 1][|log[..j + 1]| - 1] == log[j];
    MessagesPrefix(log, j + 1, i);
    MessagesUpTo(log, j);
    BlocksAnswered(log[j].response, log[j].results);
  }

  /** A conversation read from the front: every assistant message with calls is followed at
      once by one contiguous block of results, one per call; no result stands elsewhere. */
  ghost predicate Paired(ms: seq<Message>)
    decreases |ms|
  {
    if ms == [] then true
    else if ms[0].ToolResult? then false
    else if !ms[0].Assistant? then Paired(ms[1..])
    else
      var n := |ToolCalls(ms[0])|;
      n < |ms| && AnswersCalls(ms[0], ms[1..n + 1]) && Paired(ms[n + 1..])
  }

  ghost predicate AnswersCalls(response: AssistantMessage, results: seq<Message>) {
    AllResults(results) && multiset(ResultIds(results)) == multiset(CallIds(ToolCalls(response)))
  }

  /** After a paired beginning, a conversation is paired if and only if its rest is. */
  lemma {:induction false} PairedRest(a: seq<Message>, b: seq<Message>)
    requires Paired(a)
    ensures Paired(a + b) <==> Paired(b)
    decreases |a|
  {
    hide AnswersCalls, ToolCalls;
    if a == [] {
      assert a + b == b;
    } else {
      var n := if a[0].Assistant? then |ToolCalls(a[0])| else 0;
      assert (a + b)[n + 1..] == a[n + 1..] + b;
      assert (a + b)[1..n + 1] == a[1..n + 1];
      PairedRest(a[n + 1..], b);
    }
  }

  lemma AnswerIsPaired(r: AssistantMessage, results: seq<Message>)
    requires AnswersCalls(r, results)
    ensures Paired([r] + results)
  {
    var ms, n := [r] + results, |ToolCalls(r)|;
    assert |multiset(ResultIds(results))| == |results|;
    assert |multiset(CallIds(ToolCalls(r)))| == n;
    assert ms[1..n + 1] == results && ms[n + 1..] == [];
  }

  /** The head of a paired conversation: a message, and the block of results after it. */
  lemma PairedHead(ms: seq<Message>) returns (n: nat)
    requires ms != [] && Paired(ms)
    ensures !ms[0].ToolResult? && n < |ms| && n == if ms[0].Assistant? then |ToolCalls(ms[0])| else 0
    ensures ms[0].Assistant? ==> AnswersCalls(ms[0], ms[1..n + 1])
    ensures AllResults(ms[1..n + 1]) && Paired(ms[n + 1..])
  {
    hide ToolCalls;
    n := if ms[0].Assistant? then |ToolCalls(ms[0])| else 0;
  }

  lemma PairedCons(ms: seq<Message>, n: nat)
    requires ms != [] && !ms[0].ToolResult? && n < |ms| && n == if ms[0].Assistant? then |ToolCalls(ms[0])| else 0
    requires ms[0].Assistant? ==> AnswersCalls(ms[0], ms[1..n + 1])
    ensures Paired(ms) <==> Paired(ms[n + 1..])
  {
    hide ToolCalls, AnswersCalls;
  }

  /** A paired conversation may be cut before anything but a tool result. */
  lemma {:induction false} PairedSplit(a: seq<Message>, b: seq<Message>)
    requires Paired(a + b) && (b == [] || !b[0].ToolResult?)
    ensures Paired(a) && Paired(b)
    decreases |a|
  {
    if a == [] {
      assert a + b == b;
    } else {
      hide ToolCalls, Paired, AnswersCalls, AllResults;
      assert (a + b)[0] == a[0];
      var n := PairedHead(a + b);
      BlockFits(a, b, n);
      assert (a + b)[n + 1..] == a[n + 1..] + b;
      assert (a + b)[1..n + 1] == a[1..n + 1];
      PairedSplit(a[n + 1..], b);
      PairedCons(a, n);
    }
  }

  lemma BlockFits(a: seq<Message>, b: seq<Message>, n: nat)
    requires a != [] && n < |a + b| && AllResults((a + b)[1..n + 1])
    ensures n + 1 <= |a| || (b != [] && b[0].ToolResult?)
  {
    if n >= |a| {
      assert (a + b)[1..n + 1][|a| - 1] == b[0];
    }
  }

  predicate IsPoll(e: Entry) {
    e.Polled? || e.PolledFollowUps?
  }

  /** What the queues gave is paired, batch by batch. */
  ghost predicate PairedPolls(log: seq<Entry>) {
    forall i :: 0 <= i < |log| && IsPoll(log[i]) ==> Paired(log[i].messages)
  }

  lemma PairedPollsNext(log: seq<Entry>)
    requires log != []
    ensures PairedPolls(log) <==>
            PairedPolls(log[..|log| - 1]) && (IsPoll(Last(log)) ==> Paired(Last(log).messages))
  {
    hide Paired;
    var init := log[..|log| - 1];
    assert forall i :: 0 <= i < |init| ==> log[i] == init[i];
  }

  /** No response of the log failed: true of everything before a model request. */
  ghost predicate Unfailed(log: seq<Entry>) {
    forall i :: 0 <= i < |log| && log[i].Answered? ==> !Failed(log[i].response)
  }

  /** An answer that did not fail is a paired block of its own. */
  lemma AnswerBlock(base: seq<Message>, log: seq<Entry>, i: nat)
    requires WellOrdered(base, log) && Unfailed(log) && i < |log| && log[i].Answered?
    ensures Adds(log[i]) != [] && Adds(log[i])[0].Assistant? && Paired(Adds(log[i]))
  {
    hide ToolCalls, MessagesOf;
    EntryAt(base, log, i);
    AnswerIsPaired(log[i].response, log[i].results);
  }

  /** What a later poll gave directly follows the block of an answer. */
  lemma PollFollowsAnswer(base: seq<Message>, log: seq<Entry>) returns (k: nat)
    requires WellOrdered(base, log) && |log| > 1 && IsPoll(Last(log))
    ensures k < |log| - 1 && log[k].Answered?
    ensures MessagesOf(log) == MessagesOf(log[..k]) + Adds(log[k]) + Last(log).messages
    ensures MessagesOf(log[..|log| - 1]) == MessagesOf(log[..k]) + Adds(log[k])
  {
    hide WellOrdered, MessagesOf, Failed, ToolCalls, Drained;
    var n := |log| - 1;
    assert log[..n + 1] == log;
    Neighbours(base, log, n);
    MessagesUpTo(log, n);
    MessagesUpTo(log, n - 1);
    k := n - 1;
    if log[n].PolledFollowUps? {
      MessagesUpTo(log, n - 2);
      k := n - 2;
      assert MessagesOf(log[..k]) + Adds(log[k]) + [] == MessagesOf(log[..k]) + Adds(log[k]);
    }
  }

  /** The conversation a run adds is paired exactly when what the queues gave is. */
  lemma {:induction false} PairedIffPolls(base: seq<Message>, log: seq<Entry>)
    requires WellOrdered(base, log) && Unfailed(log)
    ensures Paired(MessagesOf(log)) <==> PairedPolls(log)
  {
    hide MessagesOf, Paired, PairedPolls, Adds, Unfailed, IsPoll;
    if log == [] {
      NothingIsPaired();
    } else {
      var init, e := log[..|log| - 1], Last(log);
      EntryAt(base, log, |log| - 1);
      UnfailedBefore(log);
      PairedIffPolls(base, init);
      PairedPollsNext(log);
      PairedNext(base, log);
    }
  }

  lemma UnfailedBefore(log: seq<Entry>)
    requires Unfailed(log) && log != []
    ensures Unfailed(log[..|log| - 1])
  {
  }

  lemma NothingIsPaired()
    ensures Paired(MessagesOf([])) && PairedPolls([])
  {
  }

  lemma PairedNext(base: seq<Message>, log: seq<Entry>)
    requires WellOrdered(base, log) && Unfailed(log) && log != []
    ensures Paired(MessagesOf(log)) <==>
            Paired(MessagesOf(log[..|log| - 1])) && (IsPoll(Last(log)) ==> Paired(Last(log).messages))
  {
    hide Paired, WellOrdered, Unfailed;
    var init, e := log[..|log| - 1], Last(log);
    var before := MessagesOf(init);
    assert MessagesOf(log) == before + Adds(e);
    if e.Answered? {
      AnswerBlock(base, log, |log| - 1);
      if Paired(before) {
        PairedRest(before, Adds(e));
      } else if Paired(before + Adds(e)) {
        PairedSplit(before, Adds(e));
      }
    } else if e.Asked? {
      assert before + [] == before;
    } else if |log| == 1 {
      assert before == [];
      assert [] + e.messages == e.messages;
      NothingIsPaired();
    } else {
      PollPairedNext(base, log);
    }
  }

  lemma PollPairedNext(base: seq<Message>, log: seq<Entry>)
    requires WellOrdered(base, log) && Unfailed(log) && |log| > 1 && IsPoll(Last(log))
    ensures Paired(MessagesOf(log)) <==> Paired(MessagesOf(log[..|log| - 1])) && Paired(Last(log).messages)
  {
    hide Paired, WellOrdered, Unfailed, MessagesOf, Adds;
    var k := PollFollowsAnswer(base, log);
    AnswerBlock(base, log, k);
    var front, block, batch := MessagesOf(log[..k]), Adds(log[k]), Last(log).messages;
    if Paired(front + block) {
      PairedRest(front + block, batch);
    } else if Paired(front + block + batch) {
      assert front + block + batch == front + (block + batch);
      PairedSplit(front, block + batch);
      PairedRest(front, block);
    }
  }

  /** At every model request, read from the front: what this run added to the context is
      paired if and only if every batch the queues gave is; if so, and the context the run
      started from is paired, the whole context is. */
  lemma ContextIsPaired(base: seq<Message>, log: seq<Entry>, i: nat)
    requires WellOrdered(base, log) && i < |log| && log[i].Asked?
    ensures log[i].context == base + MessagesOf(log[..i])
    ensures Paired(MessagesOf(log[..i])) <==> PairedPolls(log[..i])
    ensures Paired(base) ==> (Paired(log[i].context) <==> PairedPolls(log[..i]))
  {
    EntryAt(base, log, i);
    assert Unfailed(log[..i]) by {
      forall j | 0 <= j < i && log[j].Answered? ensures !Failed(log[j].response) {
        RequestsArePaired(base, log, i, j);
      }
    }
    PairedIffPolls(base, log[..i]);
    if Paired(base) {
      PairedRest(base, MessagesOf(log[..i]));
    }
  }

  // ---------------------------------------------------------------- injection discipline

  /** A follow-up poll comes right after a steering poll that found nothing waiting, after a
      response without tool calls. */
  lemma FollowUpDiscipline(base: seq<Message>, log: seq<Entry>, i: nat)
    requires WellOrdered(base, log) && i < |log| && log[i].PolledFollowUps?
    ensures i >= 2 && log[i - 1].Polled? && log[i - 1].messages == log[i - 1].waiting == []
    ensures log[i - 2].Answered? && ToolCalls(log[i - 2].response) == [] && !Failed(log[i - 2].response)
    ensures forall b :: b in log[i - 2].response.content ==> !b.Call?
  {
    Neighbours(base, log, i);
    Neighbours(base, log, i - 1);
    NoCallBlocks(log[i - 2].response);
  }

  /** Between two requests the log holds the answer, a steering poll, and a follow-up poll
      at most, which then found an empty steering queue before it. In one-at-a-time mode
      at most one message enters per response. */
  lemma OneInjectionPerResponse(base: seq<Message>, log: seq<Entry>, i: nat, j: nat)
    requires WellOrdered(base, log) && i < j < |log| && log[i].Asked? && log[j].Asked?
    requires forall k :: i < k < j ==> !log[k].Asked?
    requires forall k :: i < k < j && (log[k].Polled? || log[k].PolledFollowUps?) ==> log[k].mode == OneAtATime
    ensures log[i + 1].Answered? && j >= i + 3
    ensures |MessagesOf(log[i + 2..j])| <= 1
  {
    hide WellOrdered, MessagesOf, Failed, ToolCalls, Adds, Drained;
    Neighbours(base, log, i + 1);
    Neighbours(base, log, i + 2);
    Neighbours(base, log, i + 3);
    var poll, next := log[i + 2], log[i + 3];
    MessagesOfTwo(poll, next);
    PollIsSmall(poll);
    if j == i + 3 {
      assert log[i + 2..j] == [poll];
    } else {
      Neighbours(base, log, i + 4);
      PollIsSmall(next);
      assert log[i + 2..j] == [poll, next];
    }
  }

  /** A one-at-a-time poll gives at most one message. */
  lemma PollIsSmall(e: Entry)
    requires (e.Polled? || e.PolledFollowUps?) && e.mode == OneAtATime
    requires e.messages == Drained(e.mode, e.waiting)
    ensures Adds(e) == e.messages && |e.messages| <= 1
  {
  }

  lemma MessagesOfTwo(d: Entry, e: Entry)
    ensures MessagesOf([d]) == Adds(d) && MessagesOf([d, e]) == Adds(d) + Adds(e)
  {
    MessagesUpTo([d, e], 0);
    MessagesUpTo([d, e], 1);
    assert [d, e][..0] == [] && [d, e][..1] == [d] && [d, e][..2] == [d, e];
  }

  // ---------------------------------------------------------------- conservation

  /** Where a message of the conversation came from. */
  datatype Origin = Steering | FollowingUp | Model

  function OriginOf(e: Entry): Origin {
    if e.Polled? then Steering else if e.PolledFollowUps? then FollowingUp else Model
  }

  /** The origin of every message a log adds, position by position. */
  function OriginsOf(log: seq<Entry>): seq<Origin> {
    if log == [] then []
    else OriginsOf(log[..|log| - 1]) + seq(|Adds(Last(log))|, i => OriginOf(Last(log)))
  }

  /** The messages of one origin, in the order they stand. */
  function From(o: Origin, ms: seq<Message>, origins: seq<Origin>): seq<Message>
    requires |ms| == |origins|
  {
    if ms == [] then []
    else
      var n := |ms| - 1;
      From(o, ms[..n], origins[..n]) + if origins[n] == o then [ms[n]] else []
  }

  lemma {:induction false} FromBlock(o: Origin, ms: seq<Message>, origins: seq<Origin>, more: seq<Message>, p: Origin)
    requires |ms| == |origins|
    ensures From(o, ms + more, origins + seq(|more|, i => p)) == From(o, ms, origins) + if p == o then more else []
    decreases |more|
  {
    var tags := seq(|more|, i => p);
    if more == [] {
      assert ms + more == ms && origins + tags == origins;
      assert From(o, ms, origins) + [] == From(o, ms, origins);
    } else {
      var n := |more| - 1;
      FromBlock(o, ms, origins, more[..n], p);
      assert tags[..n] == seq(n, i => p);
      assert (ms + more)[..|ms| + n] == ms + more[..n];
      assert (origins + tags)[..|ms| + n] == origins + tags[..n];
      assert more[..n] + [more[n]] == more;
    }
  }

  /** What a run that drained steered and followed did with these messages: its conversation
      is ms, in which every message has one origin, and the messages of each queue are, in
      order, what was drained from it. */
  ghost predicate Accounted(steered: seq<Message>, followed: seq<Message>, ms: seq<Message>, origins: seq<Origin>) {
    && |ms| == |origins|
    && From(Steering, ms, origins) == steered
    && From(FollowingUp, ms, origins) == followed
  }

  lemma {:induction false} OriginsAccount(log: seq<Entry>)
    ensures Accounted(SteeringOf(log), FollowUpsOf(log), MessagesOf(log), OriginsOf(log))
    ensures From(Model, MessagesOf(log), OriginsOf(log)) == AnsweredOf(log)
  {
    hide From;
    if log == [] {
      NothingFrom();
    } else {
      var init, e := log[..|log| - 1], Last(log);
      OriginsAccount(init);
      var ms, origins := MessagesOf(init), OriginsOf(init);
      FromBlock(Steering, ms, origins, Adds(e), OriginOf(e));
      FromBlock(FollowingUp, ms, origins, Adds(e), OriginOf(e));
      FromBlock(Model, ms, origins, Adds(e), OriginOf(e));
      assert seq(|Adds(e)|, i => OriginOf(e)) == seq(|Adds(e)|, i => OriginOf(Last(log)));
    }
  }

  lemma NothingFrom()
    ensures From(Steering, [], []) == From(FollowingUp, [], []) == From(Model, [], []) == []
  {
  }

  /** The messages of the answers: responses and their tool results. */
  function AnsweredOf(log: seq<Entry>): seq<Message> {
    if log == [] then []
    else AnsweredOf(log[..|log| - 1]) + if Last(log).Answered? then Adds(Last(log)) else []
  }

  // ---------------------------------------------------------------- runs that are cut short

  /** How far delivery has got in a run that stopped anywhere: delivered are the messages of
      its message_end events. Before a model request at most the newest batch (the prompts,
      or what the latest poll gave) is partly delivered; after it the batch is through, and
      the answer may be partly delivered. */
  ghost predicate CutShort(prompts: seq<Message>, log: seq<Entry>, delivered: seq<Message>) {
    if log == [] then delivered <= prompts
    else if IsPoll(Last(log)) then
      prompts + MessagesOf(log[..|log| - 1]) <= delivered <= prompts + MessagesOf(log)
    else prompts + MessagesOf(log) <= delivered
  }

  /** The prompts and drained messages that never reached the transcript. */
  function Lost(prompts: seq<Message>, log: seq<Entry>, delivered: seq<Message>): seq<Message> {
    var planned := prompts + MessagesOf(log);
    if |delivered| < |planned| then planned[|delivered|..] else []
  }

  lemma CutShortOrThrough(prompts: seq<Message>, log: seq<Entry>, delivered: seq<Message>)
    requires CutShort(prompts, log, delivered)
    ensures prompts + MessagesOf(log) <= delivered ||
            prompts + MessagesOf(log) == delivered + Lost(prompts, log, delivered)
  {
    assert MessagesOf([]) == [];
    hide MessagesOf;
  }

  /** A message of a run is lost exactly when its message_end had not been processed; what is
      lost is the undelivered end of the newest batch, and everything else is in place. */
  lemma LostIff(prompts: seq<Message>, log: seq<Entry>, delivered: seq<Message>, i: nat)
    requires CutShort(prompts, log, delivered) && i < |prompts + MessagesOf(log)|
    ensures var planned := prompts + MessagesOf(log);
            if i < |delivered| then delivered[i] == planned[i]
            else
              && Lost(prompts, log, delivered)[i - |delivered|] == planned[i]
              && (log == [] || (IsPoll(Last(log)) && |planned| - i <= |Last(log).messages|))
    ensures |Lost(prompts, log, delivered)| <= if log == [] then |prompts| else |Adds(Last(log))|
  {
    assert MessagesOf([]) == [];
    hide MessagesOf;
    if log != [] {
      MessagesUpTo(log, |log| - 1);
      assert log[..|log| - 1 + 1] == log;
    }
  }

  // ---------------------------------------------------------------- turn bound

  function Requests(log: seq<Entry>): nat {
    if log == [] then 0 else Requests(log[..|log| - 1]) + if Last(log).Asked? then 1 else 0
  }

  function Responses(log: seq<Entry>): nat {
    if log == [] then 0 else Responses(log[..|log| - 1]) + if Last(log).Answered? then 1 else 0
  }

  function ResponsesWithCalls(log: seq<Entry>): nat {
    if log == [] then 0 else ResponsesWithCalls(log[..|log| - 1]) + if HasCalls(Last(log)) then 1 else 0
  }

  /** The answers of a log whose response holds a call block. */
  ghost function CallingAnswers(log: seq<Entry>): set<nat> {
    set i: nat | i < |log| && log[i].Answered? && HasCallBlock(log[i].response.content)
  }

  lemma {:induction false} ResponsesCounted(log: seq<Entry>)
    ensures ResponsesWithCalls(log) == |CallingAnswers(log)|
  {
    if log != [] {
      var n := |log| - 1;
      ResponsesCounted(log[..n]);
      if log[n].Answered? {
        NoCallBlocks(log[n].response);
      }
      CallingNext(log);
      hide CallingAnswers, ToolCalls, HasCallBlock;
    }
  }

  lemma CallingNext(log: seq<Entry>)
    requires log != []
    ensures var n := |log| - 1;
            && n !in CallingAnswers(log[..n])
            && CallingAnswers(log) == CallingAnswers(log[..n]) +
               (if log[n].Answered? && HasCallBlock(log[n].response.content) then {n} else {})
  {
    hide HasCallBlock;
  }

  /** Queue messages drained after the first request was sent. */
  function LateMessages(log: seq<Entry>): nat {
    if |log| <= 1 then 0
    else LateMessages(log[..|log| - 1]) +
         if Last(log).Polled? || Last(log).PolledFollowUps? then |Last(log).messages| else 0
  }

  /** Each request beyond the first is paid for by a response with calls or by a late message. */
  lemma {:induction false} RequestsArePaidFor(base: seq<Message>, log: seq<Entry>)
    requires WellOrdered(base, log)
    ensures Requests(log) <= 1 + ResponsesWithCalls(log) + LateMessages(log)
    ensures MayAsk(log) || (log != [] && HasCalls(Last(log))) ==>
              Requests(log) <= ResponsesWithCalls(log) + LateMessages(log)
    ensures Responses(log) <= Requests(log)
    ensures log != [] && Last(log).Asked? ==> Responses(log) < Requests(log)
  {
    if log != [] {
      var init := log[..|log| - 1];
      RequestsArePaidFor(base, init);
      if |log| == 1 {
        assert init == [];
      }
    }
  }

  /** Assistant responses number at most one, plus the responses carrying tool calls, plus
      the queue messages injected after the first turn. */
  lemma TurnBound(base: seq<Message>, log: seq<Entry>)
    requires WellOrdered(base, log)
    ensures Responses(log) <= 1 + ResponsesWithCalls(log) + LateMessages(log)
    ensures |AnswersOf(log)| == Responses(log) && ResponsesWithCalls(log) == |CallingAnswers(log)|
  {
    RequestsArePaidFor(base, log);
    AnswersCount(log);
    ResponsesCounted(log);
  }

  /** Finite tool calls and finite queue input end a run: while it waits at a request, every
      response it has had is paid for by a response with calls or by a message that was
      drained. */
  lemma WaitingIsPaidFor(base: seq<Message>, log: seq<Entry>)
    requires WellOrdered(base, log) && log != [] && Last(log).Asked?
    ensures |AnswersOf(log)| <= |CallingAnswers(log)| + LateMessages(log)
    ensures LateMessages(log) <= |SteeringOf(log)| + |FollowUpsOf(log)|
  {
    RequestsArePaidFor(base, log);
    AnswersCount(log);
    ResponsesCounted(log);
    LateAreDrained(log);
  }

  /** The answers in a log, in order. */
  ghost function AnswersOf(log: seq<Entry>): seq<Entry> {
    if log == [] then []
    else AnswersOf(log[..|log| - 1]) + if Last(log).Answered? then [Last(log)] else []
  }

  lemma {:induction false} AnswersCount(log: seq<Entry>)
    ensures |AnswersOf(log)| == Responses(log)
    ensures forall i :: 0 <= i < |AnswersOf(log)| ==> AnswersOf(log)[i].Answered?
    ensures ResponsesWithCalls(log) == ResponsesWithCalls(AnswersOf(log))
  {
    hide HasCalls;
    if log != [] {
      AnswersCount(log[..|log| - 1]);
      var answers := AnswersOf(log[..|log| - 1]);
      assert (answers + [Last(log)])[..|answers|] == answers && answers + [] == answers;
      OnlyAnswersCall(Last(log));
    }
  }

  lemma OnlyAnswersCall(e: Entry)
    ensures HasCalls(e) ==> e.Answered?
  {
  }

  lemma {:induction false} LateAreDrained(log: seq<Entry>)
    ensures LateMessages(log) <= |SteeringOf(log)| + |FollowUpsOf(log)|
  {
    if |log| > 1 {
      LateAreDrained(log[..|log| - 1]);
    }
  }

  // ---------------------------------------------------------------- the end of a run

  /** A finished run leaves a response as the last message of the conversation. */
  lemma FinishedEndsInResponse(base: seq<Message>, log: seq<Entry>)
    requires WellOrdered(base, log) && Finished(log)
    ensures |MessagesOf(log)| > 0 && MessagesOf(log)[|MessagesOf(log)| - 1].Assistant?
  {
    hide WellOrdered, MessagesOf, AnswersAll;
    var n := |log| - 1;
    assert log[..n + 1] == log;
    MessagesUpTo(log, n);
    EntryAt(base, log, n);
    if log[n].PolledFollowUps? {
      FollowUpDiscipline(base, log, n);
      MessagesUpTo(log, n - 1);
      MessagesUpTo(log, n - 2);
      EntryAt(base, log, n - 2);
      NoCallsNoResults(log[n - 2].response, log[n - 2].results);
    } else {
      FailedNoResults(log[n].response, log[n].results);
    }
  }

  lemma FailedNoResults(r: AssistantMessage, results: seq<Message>)
    requires AnswersAll(r, results) && Failed(r)
    ensures results == []
  {
  }

  /** A run that ends without a failure does so after a response without tool calls, having
      found the steering queue and then the follow-up queue empty. */
  lemma StopsOnlyWhenIdle(base: seq<Message>, log: seq<Entry>)
    requires WellOrdered(base, log) && Finished(log) && !Last(log).Answered?
    ensures var n := |log| - 1;
            && n >= 2 && log[n].PolledFollowUps? && log[n].waiting == []
            && log[n - 1].Polled? && log[n - 1].waiting == []
            && log[n - 2].Answered? && ToolCalls(log[n - 2].response) == []
            && forall b :: b in log[n - 2].response.content ==> !b.Call?
  {
    FollowUpDiscipline(base, log, |log| - 1);
    Neighbours(base, log, |log| - 1);
  }

  lemma AllBlocksAnswered(r: AssistantMessage, results: seq<Message>)
    requires !Failed(r) && AnswersAll(r, results) && AllResults(results)
    ensures AnswersBlocks(r.content, results)
  {
    hide ToolCalls, AnswersBlocks;
    BlocksAnswered(r, results);
  }

  lemma NoCallsNoResults(r: AssistantMessage, results: seq<Message>)
    requires AnswersAll(r, results) && ToolCalls(r) == []
    ensures results == []
  {
    assert CallIds([]) == [];
    assert |multiset(ResultIds(results))| == |results|;
  }
}
