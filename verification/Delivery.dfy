/** How drained messages reach the transcript of a run (packages/agent/src/agent-loop.ts), and
    which of them a throwing listener keeps from it. */
module Delivery {
  import opened Awaiting
  import opened Messages
  import opened RunLog

  /** Messages on their way into the transcript: the prompts, or what one poll gave. before is
      the trace when they were given, opening what is emitted ahead of them. */
  datatype Batch = Batch(messages: seq<Message>, before: seq<Event>, opening: seq<Event>)

  function Brackets(messages: seq<Message>): seq<Event> {
    if messages == [] then []
    else
      var last := messages[|messages| - 1];
      Brackets(messages[..|messages| - 1]) + [MessageStart(last), MessageEnd(last)]
  }

  /** The trace once a batch is through. */
  function After(b: Batch): seq<Event> {
    b.before + b.opening + Brackets(b.messages)
  }

  /** Some listener throws while the batch is delivered, before the end of its last message:
      told from the host, what was emitted before, and the batch. */
  ghost predicate Loses(host: Host, b: Batch) {
    && b.messages != []
    && exists i :: |b.before| < i < |After(b)| && HeardAt(host, After(b), i).Thrown?
  }

  /** The batches that hold messages are part of the trace, and none of them lost any. */
  ghost predicate AllThrough(host: Host, batches: seq<Batch>, trace: seq<Event>) {
    forall b :: b in batches && b.messages != [] ==> After(b) <= trace && !Loses(host, b)
  }

  /** The listeners of the newest event have thrown, and no others before. */
  ghost predicate FirstThrow(host: Host, trace: seq<Event>) {
    && trace != [] && host.listeners(trace).Thrown?
    && forall i :: 0 < i < |trace| ==> HeardAt(host, trace, i).Normal?
  }

  /** Delivery of the batch has stopped on its way. */
  ghost predicate Interrupted(host: Host, b: Batch, trace: seq<Event>) {
    b.messages != [] && |b.before| < |trace| < |After(b)| && trace <= After(b) && FirstThrow(host, trace)
  }

  // ---------------------------------------------------------------- batches of a run

  /** The batches a log's polls gave, in order. */
  function Given(log: seq<Entry>): seq<seq<Message>> {
    if log == [] then []
    else
      var e := log[|log| - 1];
      Given(log[..|log| - 1]) + if IsPoll(e) && e.messages != [] then [e.messages] else []
  }

  lemma GivenNext(log: seq<Entry>, e: Entry)
    ensures Given(log + [e]) == Given(log) + if IsPoll(e) && e.messages != [] then [e.messages] else []
  {
    assert (log + [e])[..|log|] == log;
  }

  function Contents(batches: seq<Batch>): seq<seq<Message>> {
    seq(|batches|, k requires 0 <= k < |batches| => batches[k].messages)
  }

  /** What is emitted ahead of the k-th batch: the prompts open the run, what the first poll
      gave follows them in the first turn, any other batch opens a turn. */
  function OpeningAt(log: seq<Entry>, k: nat): seq<Event> {
    if k == 0 then [AgentStart, TurnStart]
    else if k == 1 && log != [] && IsPoll(log[0]) && log[0].messages != [] then []
    else [TurnStart]
  }

  /** The batches of a run are its prompts and what its polls gave. */
  ghost predicate BatchesOf(prompts: seq<Message>, log: seq<Entry>, batches: seq<Batch>) {
    && Contents(batches) == [prompts] + Given(log)
    && batches[0].before == []
    && (forall k: nat :: k < |batches| ==> batches[k].opening == OpeningAt(log, k))
    && (forall k: nat :: 0 < k < |batches| && batches[k].opening == [] ==> batches[k].before == After(batches[0]))
  }

  /** A poll that gave messages starts a batch. */
  function WithBatch(batches: seq<Batch>, messages: seq<Message>, trace: seq<Event>, opening: seq<Event>): seq<Batch> {
    if messages == [] then batches else batches + [Batch(messages, trace, opening)]
  }

  lemma BatchAdded(prompts: seq<Message>, log: seq<Entry>, batches: seq<Batch>, e: Entry,
                   trace: seq<Event>, opening: seq<Event>)
    requires BatchesOf(prompts, log, batches) && IsPoll(e)
    requires opening == if log == [] then [] else [TurnStart]
    requires log == [] ==> trace == After(batches[0])
    ensures BatchesOf(prompts, log + [e], WithBatch(batches, e.messages, trace, opening))
  {
    hide Given, After, OpeningAt;
    GivenNext(log, e);
    assert Contents(batches) == [prompts] + Given(log);
    var added := WithBatch(batches, e.messages, trace, opening);
    FirstGiven(log);
    OpeningsStay(log, e, batches);
    if e.messages == [] {
      assert Given(log) + [] == Given(log);
    } else {
      OpeningOfNew(log, e, |batches|);
      assert Contents(added) == Contents(batches) + [e.messages];
      assert [prompts] + Given(log) + [e.messages] == [prompts] + (Given(log) + [e.messages]);
    }
  }

  lemma {:induction false} FirstGiven(log: seq<Entry>)
    ensures log == [] ==> Given(log) == []
    ensures log != [] && IsPoll(log[0]) && log[0].messages != [] ==>
              Given(log) != [] && Given(log)[0] == log[0].messages
  {
    if |log| > 1 {
      FirstGiven(log[..|log| - 1]);
    }
  }

  lemma OpeningsStay(log: seq<Entry>, e: Entry, batches: seq<Batch>)
    requires log == [] ==> |batches| == 1
    ensures forall k: nat :: k < |batches| ==> OpeningAt(log + [e], k) == OpeningAt(log, k)
  {
  }

  lemma OpeningOfNew(log: seq<Entry>, e: Entry, k: nat)
    requires IsPoll(e) && e.messages != [] && k > 0
    requires if log == [] then k == 1 else IsPoll(log[0]) && log[0].messages != [] ==> k > 1
    ensures OpeningAt(log + [e], k) == if log == [] then [] else [TurnStart]
  {
  }

  /** An entry that is no poll gives no batch. */
  lemma NoBatch(prompts: seq<Message>, log: seq<Entry>, batches: seq<Batch>, e: Entry)
    requires BatchesOf(prompts, log, batches) && !IsPoll(e)
    ensures BatchesOf(prompts, log + [e], batches)
  {
    FirstGiven(log);
    OpeningsStay(log, e, batches);
    GivenNext(log, e);
    assert Given(log) + [] == Given(log);
  }

  lemma FirstBatch(prompts: seq<Message>)
    ensures BatchesOf(prompts, [], [Batch(prompts, [], [AgentStart, TurnStart])])
  {
  }

  /** The batches of a run between its steps, pending being the newest, not yet delivered. */
  ghost predicate OnTheWay(host: Host, batches: seq<Batch>, trace: seq<Event>, pending: seq<Message>) {
    if pending == [] then AllThrough(host, batches, trace)
    else
      && batches != [] && AllThrough(host, batches[..|batches| - 1], Last(batches).before)
      && Last(batches).messages == pending && Last(batches).before == trace
  }

  /** The batches of a run that has thrown. */
  ghost predicate Halted(host: Host, prompts: seq<Message>, log: seq<Entry>, batches: seq<Batch>, trace: seq<Event>,
                         delivered: seq<Message>) {
    if Lost(prompts, log, delivered) == [] then AllThrough(host, batches, trace)
    else
      && batches != [] && AllThrough(host, batches[..|batches| - 1], trace)
      && Interrupted(host, Last(batches), trace)
  }

  // ---------------------------------------------------------------- along the path of a batch

  lemma {:induction false} BracketsAt(messages: seq<Message>, i: nat)
    requires i <= |messages|
    ensures |Brackets(messages)| == 2 * |messages| && Brackets(messages[..i]) <= Brackets(messages)
    ensures i < |messages| ==> Brackets(messages[..i]) + [MessageStart(messages[i])] <= Brackets(messages)
    ensures i < |messages| ==>
              Brackets(messages[..i + 1]) ==
              Brackets(messages[..i]) + [MessageStart(messages[i]), MessageEnd(messages[i])]
    decreases |messages|
  {
    var n := |messages| - 1;
    if i < |messages| {
      assert messages[..i + 1][..i] == messages[..i];
      if i < n {
        BracketsAt(messages[..n], i);
        assert messages[..n][..i] == messages[..i] && messages[..n][..i + 1] == messages[..i + 1];
      } else {
        BracketsAt(messages[..n], n);
        assert messages[..i + 1] == messages;
      }
    } else {
      assert messages[..i] == messages;
      if messages != [] {
        BracketsAt(messages[..n], n);
      }
    }
  }

  lemma NoBrackets(messages: seq<Message>)
    ensures Brackets(messages[..0]) == []
  {
  }

  lemma ThroughStays(host: Host, batches: seq<Batch>, trace: seq<Event>, longer: seq<Event>)
    requires AllThrough(host, batches, trace) && trace <= longer
    ensures AllThrough(host, batches, longer)
  {
    hide Loses, After;
  }

  /** A batch that is through, no listener having thrown, lost nothing. */
  lemma ThroughWhenQuiet(host: Host, batches: seq<Batch>, trace: seq<Event>, n: nat)
    requires batches != [] && AllThrough(host, batches[..|batches| - 1], Last(batches).before)
    requires NothingThrew(host, trace, n) && trace == After(Last(batches))
    ensures AllThrough(host, batches, trace)
  {
    hide HeardAt, Brackets;
    var b := Last(batches);
    assert !Loses(host, b);
    assert b.before <= trace;
    ThroughStays(host, batches[..|batches| - 1], b.before, trace);
    assert batches == batches[..|batches| - 1] + [b];
  }

  lemma FirstThrowAtEvent(host: Host, trace: seq<Event>, n: nat, e: Event)
    requires NothingThrew(host, trace, n) && host.listeners(trace + [e]).Thrown?
    ensures FirstThrow(host, trace + [e])
  {
    hide HeardAt;
    forall i | 0 < i < |trace + [e]| ensures HeardAt(host, trace + [e], i).Normal? {
      HeardBefore(host, trace, trace + [e], i);
    }
  }

  /** A listener has thrown on the path of the newest batch, i of whose messages have ended. */
  lemma HaltsOnPath(host: Host, prompts: seq<Message>, log: seq<Entry>, batches: seq<Batch>, trace: seq<Event>,
                    front: seq<Message>, i: nat, half: bool)
    requires batches != [] && AllThrough(host, batches[..|batches| - 1], Last(batches).before)
    requires var b := Last(batches);
             && i <= |b.messages| && (half ==> i < |b.messages|)
             && prompts + MessagesOf(log) == front + b.messages
             && trace == b.before + b.opening + Brackets(b.messages[..i]) +
                         (if half then [MessageStart(b.messages[i])] else [])
             && |b.before| < |trace|
    requires FirstThrow(host, trace)
    ensures Halted(host, prompts, log, batches, trace, front + Last(batches).messages[..i])
  {
    hide HeardAt, MessagesOf, Loses, Brackets, FirstThrow;
    var b := Last(batches);
    BracketsAt(b.messages, i);
    assert trace <= After(b);
    ThroughStays(host, batches[..|batches| - 1], b.before, trace);
    if i == |b.messages| {
      assert b.messages[..i] == b.messages;
      assert trace == After(b);
      ThroughUntilEnd(host, b);
      assert batches == batches[..|batches| - 1] + [b];
    } else {
      PathIsLonger(b, i);
    }
  }

  /** The same in the opening of the newest batch. */
  lemma HaltsInOpening(host: Host, prompts: seq<Message>, log: seq<Entry>, batches: seq<Batch>, trace: seq<Event>,
                       front: seq<Message>, h: nat)
    requires batches != [] && AllThrough(host, batches[..|batches| - 1], Last(batches).before)
    requires var b := Last(batches);
             && 0 < h <= |b.opening| && trace == b.before + b.opening[..h]
             && prompts + MessagesOf(log) == front + b.messages
    requires FirstThrow(host, trace)
    ensures Halted(host, prompts, log, batches, trace, front)
  {
    hide HeardAt, MessagesOf, Loses, Brackets, FirstThrow;
    var b := Last(batches);
    assert b.opening[..h] + b.opening[h..] == b.opening;
    assert trace <= After(b);
    ThroughStays(host, batches[..|batches| - 1], b.before, trace);
    if b.messages == [] {
      assert front + b.messages == front;
      assert batches == batches[..|batches| - 1] + [b];
    } else {
      BracketsAt(b.messages, 0);
    }
  }

  lemma PathIsLonger(b: Batch, i: nat)
    requires i < |b.messages|
    ensures |b.before + b.opening + Brackets(b.messages[..i]) + [MessageStart(b.messages[i])]| < |After(b)|
  {
    hide Brackets;
    BracketsAt(b.messages, i);
    BracketsAt(b.messages, i + 1);
  }

  /** A throw at the very end of the last message loses nothing. */
  lemma ThroughUntilEnd(host: Host, b: Batch)
    requires FirstThrow(host, After(b))
    ensures !Loses(host, b)
  {
    hide HeardAt, After;
  }

  /** Delivery of an empty batch cannot be interrupted. */
  lemma HaltsBeside(host: Host, prompts: seq<Message>, log: seq<Entry>, batches: seq<Batch>, trace: seq<Event>,
                    delivered: seq<Message>)
    requires AllThrough(host, batches, trace) && |prompts + MessagesOf(log)| <= |delivered|
    ensures Halted(host, prompts, log, batches, trace, delivered)
  {
  }

  // ---------------------------------------------------------------- what is lost

  /** Exactly when a run that has thrown loses a message: when some listener throws on the
      path of one of its batches, before the end of the batch's last message. */
  lemma LosesIff(host: Host, prompts: seq<Message>, log: seq<Entry>, batches: seq<Batch>, trace: seq<Event>,
                 delivered: seq<Message>)
    requires Halted(host, prompts, log, batches, trace, delivered)
    ensures Lost(prompts, log, delivered) != [] <==> exists b :: b in batches && Loses(host, b)
  {
    hide Lost, After, HeardAt;
    if Lost(prompts, log, delivered) != [] {
      InterruptedLoses(host, Last(batches), trace);
    }
  }

  lemma EmptyLosesNothing(host: Host, b: Batch)
    requires b.messages == []
    ensures !Loses(host, b)
  {
  }

  lemma InterruptedLoses(host: Host, b: Batch, trace: seq<Event>)
    requires Interrupted(host, b, trace)
    ensures Loses(host, b)
  {
    assert After(b)[..|trace|] == trace;
    assert HeardAt(host, After(b), |trace|).Thrown?;
  }

  /** The events that deliver messages. */
  predicate Delivers(e: Event) {
    e.AgentStart? || e.TurnStart? || e.MessageStart? || e.MessageEnd?
  }

  /** The listeners never throw at an event that delivers messages; elsewhere they may, and so
      may everything else. */
  ghost predicate SafeDelivery(host: Host) {
    forall trace: seq<Event> :: trace != [] && Delivers(trace[|trace| - 1]) ==> host.listeners(trace).Normal?
  }

  lemma {:induction false} BracketsDeliver(messages: seq<Message>)
    ensures forall e :: e in Brackets(messages) ==> Delivers(e)
  {
    if messages != [] {
      BracketsDeliver(messages[..|messages| - 1]);
    }
  }

  lemma PathDelivers(b: Batch, i: nat)
    requires |b.before| < i < |After(b)| && forall e :: e in b.opening ==> Delivers(e)
    ensures Delivers(After(b)[i - 1])
  {
    BracketsDeliver(b.messages);
    hide Brackets, Delivers;
    var path := b.opening + Brackets(b.messages);
    assert After(b) == b.before + path;
    assert After(b)[i - 1] == path[i - 1 - |b.before|];
  }

  lemma SafeAt(host: Host, trace: seq<Event>, i: nat)
    requires SafeDelivery(host) && 0 < i <= |trace| && Delivers(trace[i - 1])
    ensures HeardAt(host, trace, i).Normal?
  {
    hide Delivers;
    assert trace[..i][|trace[..i]| - 1] == trace[i - 1];
  }

  /** Such a host never makes a run lose a message. */
  lemma SafeLosesNothing(host: Host, prompts: seq<Message>, log: seq<Entry>, batches: seq<Batch>, b: Batch)
    requires SafeDelivery(host) && BatchesOf(prompts, log, batches) && b in batches
    ensures !Loses(host, b)
  {
    hide Given, After, Delivers, OpeningAt, SafeDelivery;
    var k: nat :| k < |batches| && batches[k] == b;
    OpeningDelivers(log, k);
    forall i | |b.before| < i < |After(b)| ensures HeardAt(host, After(b), i).Normal? {
      PathDelivers(b, i);
      SafeAt(host, After(b), i);
    }
  }

  lemma OpeningDelivers(log: seq<Entry>, k: nat)
    ensures forall e :: e in OpeningAt(log, k) ==> Delivers(e)
  {
  }

  // ---------------------------------------------------------------- a run that loses its first message

  /** The listeners throw at the message_start of the first message of a run without prompts. */
  ghost predicate ThrowsAtFirst(host: Host, message: Message) {
    && host.listeners([AgentStart]).Normal? && host.listeners([AgentStart, TurnStart]).Normal?
    && host.listeners([AgentStart, TurnStart, MessageStart(message)]).Thrown?
  }

  /** Until its first poll nothing throws. */
  lemma QuietUntilPoll(host: Host, message: Message, log: seq<Entry>, batches: seq<Batch>, trace: seq<Event>)
    requires ThrowsAtFirst(host, message) && BatchesOf([], log, batches)
    requires trace != [] && trace <= After(batches[0])
    ensures host.listeners(trace).Normal?
  {
    assert Contents(batches)[0] == [];
    assert After(batches[0]) == [AgentStart, TurnStart];
    if |trace| == 1 {
      assert trace == [AgentStart];
    } else {
      assert trace == [AgentStart, TurnStart];
    }
  }

  /** The batch of the first poll loses its messages. */
  lemma FirstBatchLoses(host: Host, message: Message, log: seq<Entry>, batches: seq<Batch>)
    requires ThrowsAtFirst(host, message) && BatchesOf([], log, batches)
    requires log != [] && IsPoll(log[0]) && [message] <= log[0].messages
    ensures |batches| > 1 && batches[1].messages != [] && batches[1].before == [AgentStart, TurnStart]
    ensures |After(batches[1])| > 3 && After(batches[1])[..3] == [AgentStart, TurnStart, MessageStart(message)]
    ensures Loses(host, batches[1])
  {
    hide Given;
    FirstGiven(log);
    assert Contents(batches)[0] == [] && Contents(batches)[1] == log[0].messages;
    assert After(batches[0]) == [AgentStart, TurnStart];
    var b := batches[1];
    BracketsAt(b.messages, 0);
    hide Brackets;
    assert b.messages[..0] == [];
    assert After(b) == [AgentStart, TurnStart] + Brackets(b.messages);
    NoBrackets(b.messages);
    assert Brackets(b.messages)[0] == MessageStart(message);
    assert After(b)[..3] == [AgentStart, TurnStart, MessageStart(message)];
    assert HeardAt(host, After(b), 3).Thrown?;
  }

  /** Such a run stops there. */
  lemma StopsAtFirst(host: Host, message: Message, log: seq<Entry>, batches: seq<Batch>, trace: seq<Event>,
                     delivered: seq<Message>)
    requires ThrowsAtFirst(host, message) && BatchesOf([], log, batches)
    requires log != [] && IsPoll(log[0]) && [message] <= log[0].messages
    requires Halted(host, [], log, batches, trace, delivered)
    ensures trace == [AgentStart, TurnStart, MessageStart(message)]
  {
    hide Lost, Given, Loses, BatchesOf, After, HeardAt;
    FirstBatchLoses(host, message, log, batches);
    var b := batches[1];
    LosingIsLast(host, batches, trace, b, 1);
    FirstThrowIsFirst(host, b, trace, 3);
    assert trace == After(b)[..3];
  }

  lemma LosingIsLast(host: Host, batches: seq<Batch>, trace: seq<Event>, b: Batch, k: nat)
    requires k < |batches| && batches[k] == b && b.messages != [] && Loses(host, b)
    ensures !AllThrough(host, batches, trace)
    ensures AllThrough(host, batches[..|batches| - 1], trace) ==> k == |batches| - 1
  {
    hide Loses, After;
    assert b in batches;
    if k < |batches| - 1 {
      assert b == batches[..|batches| - 1][k];
    }
  }

  lemma FirstThrowIsFirst(host: Host, b: Batch, trace: seq<Event>, i: nat)
    requires trace <= After(b) && FirstThrow(host, trace)
    requires 0 < i < |After(b)| && host.listeners(After(b)[..i]).Thrown?
    ensures |trace| <= i
  {
    hide After;
    if i < |trace| {
      HeardBefore(host, trace, After(b), i);
    }
  }
}
