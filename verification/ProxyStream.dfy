/** The proxy stream client of packages/agent/src/proxy.ts: reading chunks, handling data
    lines, pushing rebuilt events, and turning a thrown error into a final error event. */
module ProxyStream {
  import opened Basics
  import opened LineFramer
  import opened ProxyEvents

  /** JSON.parse of a data line. */
  datatype Decoded = Decoded(event: ProxyEvent) | BadJson(message: string)

  const DATA_PREFIX := "data: "

  /** ECMAScript white space and line terminators. */
  predicate IsSpace(c: char) {
    var n := c as int;
    || 0x09 <= n <= 0x0D || n == 0x20 || n == 0xA0 || n == 0x1680 || 0x2000 <= n <= 0x200A
    || n == 0x2028 || n == 0x2029 || n == 0x202F || n == 0x205F || n == 0x3000 || n == 0xFEFF
  }

  function TrimStart(s: string): string {
    if s != "" && IsSpace(s[0]) then TrimStart(s[1..]) else s
  }

  function TrimEnd(s: string): string {
    if s != "" && IsSpace(s[|s| - 1]) then TrimEnd(s[..|s| - 1]) else s
  }

  /** The data of a line: the text after its prefix, trimmed; None when there is nothing. */
  function DataOf(line: string): Option<string> {
    if DATA_PREFIX <= line && TrimEnd(TrimStart(line[|DATA_PREFIX|..])) != "" then
      Some(TrimEnd(TrimStart(line[|DATA_PREFIX|..])))
    else None
  }

  // ---------------------------------------------------------------- data lines

  ghost predicate White(s: string) {
    forall c :: c in s ==> IsSpace(c)
  }

  /** A text that trimming leaves as it is. */
  predicate Trimmed(s: string) {
    s != "" && !IsSpace(s[0]) && !IsSpace(s[|s| - 1])
  }

  /** Spaces, tabs, newlines and byte order marks are white; no visible ASCII character is. */
  lemma SpaceExamples()
    ensures White(" \t\n\r\U{FEFF}") && forall c :: '!' <= c <= '~' ==> !IsSpace(c)
  {
  }

  lemma {:induction false} TrimStartOff(a: string, s: string)
    requires White(a) && (s == "" || !IsSpace(s[0]))
    ensures TrimStart(a + s) == s
  {
    if a == "" {
      assert a + s == s;
    } else {
      assert a[0] in a && (a + s)[1..] == a[1..] + s;
      TrimStartOff(a[1..], s);
    }
  }

  lemma {:induction false} TrimEndOff(s: string, b: string)
    requires White(b) && (s == "" || !IsSpace(s[|s| - 1]))
    ensures TrimEnd(s + b) == s
  {
    if b == "" {
      assert s + b == s;
    } else {
      assert b[|b| - 1] in b && (s + b)[..|s + b| - 1] == s + b[..|b| - 1];
      TrimEndOff(s, b[..|b| - 1]);
    }
  }

  lemma {:induction false} TrimStartWhite(s: string)
    ensures TrimStart(s) == "" <==> White(s)
    ensures TrimStart(s) != "" ==> !IsSpace(TrimStart(s)[0])
  {
    if s != "" {
      assert s == [s[0]] + s[1..];
      if IsSpace(s[0]) {
        TrimStartWhite(s[1..]);
      } else {
        assert s[0] in s;
      }
    }
  }

  lemma {:induction false} TrimEndWhite(s: string)
    ensures TrimEnd(s) == "" <==> White(s)
  {
    if s != "" {
      var n := |s| - 1;
      assert s == s[..n] + [s[n]];
      if IsSpace(s[n]) {
        TrimEndWhite(s[..n]);
      } else {
        assert s[n] in s;
      }
    }
  }

  /** The data of a line is what stands between the prefix and the end, without the white space
      around it. */
  lemma DataIsTrimmed(a: string, d: string, b: string)
    requires White(a) && Trimmed(d) && White(b)
    ensures DataOf("data: " + a + d + b) == Some(d)
  {
    hide IsSpace;
    var line := "data: " + a + d + b;
    assert line[|DATA_PREFIX|..] == a + (d + b);
    TrimStartOff(a, d + b);
    TrimEndOff(d, b);
  }

  /** A line has no data exactly when it lacks the prefix or only white space follows it. */
  lemma NoDataIff(line: string)
    ensures DataOf(line).None? <==> !("data: " <= line) || White(line[6..])
  {
    hide IsSpace;
    if DATA_PREFIX <= line {
      var rest := line[6..];
      TrimStartWhite(rest);
      TrimEndWhite(TrimStart(rest));
      if TrimStart(rest) != "" {
        assert TrimStart(rest)[0] in TrimStart(rest);
      }
    }
  }

  // ---------------------------------------------------------------- lines and events

  /** The client's state: the partial message, the events delivered, whether a final event
      has closed the stream, and the error that stopped reading, if any. */
  datatype Session = Session(partial: Partial, pushed: seq<ClientEvent>, completed: bool, thrown: Option<string>)

  /** EventStream.push: nothing is delivered after a final event. */
  function Deliver(s: Session, e: ClientEvent): Session {
    if s.completed then s else s.(pushed := s.pushed + [e], completed := e.Finished? || e.Broken?)
  }

  /** The effect of one decoded event; after a throw none has any. */
  function OnEvent(parse: JsonParser, s: Session, e: ProxyEvent): Session {
    if s.thrown.Some? then s
    else
      match Process(parse, s.partial, e)
      case Thrown(message) => s.(thrown := Some(message))
      case Silent(q) => s.(partial := q)
      case Pushed(q, event) => Deliver(s.(partial := q), event)
  }

  function OnEvents(parse: JsonParser, s: Session, events: seq<ProxyEvent>): Session {
    if events == [] then s else OnEvent(parse, OnEvents(parse, s, events[..|events| - 1]), events[|events| - 1])
  }

  /** The effect of one line; after a throw no line is read. */
  function OnLine(decode: string -> Decoded, parse: JsonParser, s: Session, line: string): Session {
    if s.thrown.Some? || DataOf(line).None? then s
    else
      match decode(DataOf(line).value)
      case BadJson(message) => s.(thrown := Some(message))
      case Decoded(e) => OnEvent(parse, s, e)
  }

  function OnLines(decode: string -> Decoded, parse: JsonParser, s: Session, lines: seq<string>): Session {
    if lines == [] then s
    else OnLine(decode, parse, OnLines(decode, parse, s, lines[..|lines| - 1]), lines[|lines| - 1])
  }

  /** How reading ends: with the response, at a check that finds the abort signal set, or with
      a rejected read. */
  datatype Ending = EndOfText | AbortSeen | ReadFailed(message: string, aborted: bool)

  const ABORT_MESSAGE := "Request aborted by user"

  /** The catch clause: the error becomes a final event. */
  function Fail(s: Session, reason: StopReason, message: string): Session {
    var q := s.partial.(stopReason := reason, errorMessage := Some(message));
    Deliver(s.(partial := q, thrown := Some(message)), Broken(reason, q))
  }

  /** The end of the stream. A line that throws stops reading before the ending is seen. */
  function Closed(s: Session, ending: Ending): Session {
    if s.thrown.Some? then Fail(s, Error, s.thrown.value)
    else
      match ending
      case EndOfText => s
      case AbortSeen => Fail(s, Aborted, ABORT_MESSAGE)
      case ReadFailed(message, aborted) => Fail(s, if aborted then Aborted else Error, message)
  }

  lemma OnLinesNext(decode: string -> Decoded, parse: JsonParser, s: Session, lines: seq<string>, line: string)
    ensures OnLines(decode, parse, s, lines + [line]) == OnLine(decode, parse, OnLines(decode, parse, s, lines), line)
  {
    assert (lines + [line])[..|lines|] == lines;
  }

  /** Once reading has thrown, the rest of the text does not matter. */
  lemma {:induction false} ThrownStays(decode: string -> Decoded, parse: JsonParser, s: Session,
                                       lines: seq<string>, all: seq<string>)
    requires lines <= all && OnLines(decode, parse, s, lines).thrown.Some?
    ensures OnLines(decode, parse, s, all) == OnLines(decode, parse, s, lines)
    decreases |all|
  {
    if |lines| < |all| {
      ThrownStays(decode, parse, s, lines, all[..|all| - 1]);
    } else {
      assert lines == all;
    }
  }

  /** A data line that is no JSON, or whose event throws, stops reading: what was rebuilt and pushed
      before it stays, and no later line has an effect. */
  lemma BadLineStops(decode: string -> Decoded, parse: JsonParser, s: Session, lines: seq<string>,
                     a: string, data: string, b: string, rest: seq<string>)
    requires White(a) && Trimmed(data) && White(b) && OnLines(decode, parse, s, lines).thrown.None?
    ensures var before := OnLines(decode, parse, s, lines);
            var after := OnLines(decode, parse, s, lines + ["data: " + a + data + b] + rest);
            match decode(data)
            case BadJson(message) => after == before.(thrown := Some(message))
            case Decoded(e) =>
              Process(parse, before.partial, e).Thrown? ==>
                after == before.(thrown := Some(Process(parse, before.partial, e).message))
  {
    hide White, Trimmed, DataOf, Process, OnLines;
    var line := "data: " + a + data + b;
    DataIsTrimmed(a, data, b);
    OnLinesNext(decode, parse, s, lines, line);
    if OnLines(decode, parse, s, lines + [line]).thrown.Some? {
      ThrownStays(decode, parse, s, lines + [line], lines + [line] + rest);
    }
  }

  /** What is pushed holds at most one final event, and nothing after it. */
  ghost predicate OneFinal(s: Session) {
    && (forall i :: 0 <= i < |s.pushed| - 1 ==> !s.pushed[i].Finished? && !s.pushed[i].Broken?)
    && (s.completed <==> s.pushed != [] && (s.pushed[|s.pushed| - 1].Finished? || s.pushed[|s.pushed| - 1].Broken?))
  }

  lemma DeliverOneFinal(s: Session, e: ClientEvent)
    requires OneFinal(s)
    ensures OneFinal(Deliver(s, e))
  {
  }

  lemma {:induction false} LinesOneFinal(decode: string -> Decoded, parse: JsonParser, s: Session, lines: seq<string>)
    requires OneFinal(s)
    ensures OneFinal(OnLines(decode, parse, s, lines))
  {
    hide OneFinal, Deliver, Process, DataOf;
    if lines != [] {
      var before := OnLines(decode, parse, s, lines[..|lines| - 1]);
      LinesOneFinal(decode, parse, s, lines[..|lines| - 1]);
      LineOneFinal(decode, parse, before, lines[|lines| - 1]);
    }
  }

  lemma LineOneFinal(decode: string -> Decoded, parse: JsonParser, s: Session, line: string)
    requires OneFinal(s)
    ensures OneFinal(OnLine(decode, parse, s, line))
  {
    hide DataOf, Process;
    assert forall q, t :: OneFinal(s.(partial := q)) && OneFinal(s.(thrown := t));
  }

  /** A closed stream that threw, was aborted or could not be read on has delivered a final
      event. Unless one had been delivered before, it is an error event with the reason and the
      error text, and so is the message. */
  lemma ClosedIsFinal(decode: string -> Decoded, parse: JsonParser, s: Session, lines: seq<string>, ending: Ending)
    requires OneFinal(s)
    ensures var before := OnLines(decode, parse, s, lines);
            var t := Closed(before, ending);
            && OneFinal(t) && (t.thrown.Some? || !ending.EndOfText? ==> t.completed)
            && (before.thrown.Some? ==> FailedWith(before, t, Error, before.thrown.value))
            && (before.thrown.None? ==>
                  match ending
                  case EndOfText => t == before
                  case AbortSeen => FailedWith(before, t, Aborted, "Request aborted by user")
                  case ReadFailed(message, aborted) =>
                    FailedWith(before, t, if aborted then Aborted else Error, message))
  {
    hide OnLines, OneFinal;
    LinesOneFinal(decode, parse, s, lines);
    var t := OnLines(decode, parse, s, lines);
    forall reason, message ensures OneFinal(Fail(t, reason, message)) {
      FailOneFinal(t, reason, message);
    }
  }

  /** The stream has failed: the message carries reason and error text, and so does the last
      event, unless the stream had been completed before. */
  ghost predicate FailedWith(before: Session, after: Session, reason: StopReason, message: string) {
    && after.partial.stopReason == reason && after.partial.errorMessage == Some(message)
    && after.partial.content == before.partial.content && after.partial.usage == before.partial.usage
    && after.thrown == Some(message)
    && if before.completed then after.pushed == before.pushed
       else after.pushed == before.pushed + [Broken(reason, after.partial)]
  }

  lemma FailOneFinal(s: Session, reason: StopReason, message: string)
    requires OneFinal(s)
    ensures OneFinal(Fail(s, reason, message))
  {
    var q := s.partial.(stopReason := reason, errorMessage := Some(message));
    DeliverOneFinal(s.(partial := q, thrown := Some(message)), Broken(reason, q));
  }

  // ---------------------------------------------------------------- a whole stream

  /** One text per event, without newlines or white space around it, from which decode gives the
      event back. */
  ghost predicate Faithful(encode: ProxyEvent -> string, decode: string -> Decoded) {
    forall e :: Trimmed(encode(e)) && OneLine(encode(e)) && decode(encode(e)) == Decoded(e)
  }

  /** A data line of event e, with any white space around the data. */
  ghost predicate DataLine(encode: ProxyEvent -> string, line: string, e: ProxyEvent) {
    exists a, b :: White(a) && White(b) && line == "data: " + a + encode(e) + b
  }

  /** The lines hold a data line per event, in order; every other line lacks the prefix or has
      only white space after it. */
  ghost predicate Carries(encode: ProxyEvent -> string, lines: seq<string>, events: seq<ProxyEvent>) {
    if lines == [] then events == []
    else
      var n, m := |lines| - 1, |events| - 1;
      || ((!("data: " <= lines[n]) || White(lines[n][6..])) && Carries(encode, lines[..n], events))
      || (events != [] && DataLine(encode, lines[n], events[m]) && Carries(encode, lines[..n], events[..m]))
  }

  lemma LineIsEvent(encode: ProxyEvent -> string, decode: string -> Decoded, parse: JsonParser, s: Session,
                    line: string, e: ProxyEvent)
    requires Faithful(encode, decode) && DataLine(encode, line, e)
    ensures OnLine(decode, parse, s, line) == OnEvent(parse, s, e)
  {
    hide DataOf, Trimmed, White, OnEvent;
    var a, b :| White(a) && White(b) && line == "data: " + a + encode(e) + b;
    DataIsTrimmed(a, encode(e), b);
    assert s.thrown.Some? ==> OnEvent(parse, s, e) == s by { ThrownIsOver(parse, s, e); }
  }

  lemma ThrownIsOver(parse: JsonParser, s: Session, e: ProxyEvent)
    ensures s.thrown.Some? ==> OnEvent(parse, s, e) == s
  {
  }

  lemma {:induction false} LinesAreEvents(encode: ProxyEvent -> string, decode: string -> Decoded, parse: JsonParser,
                                          s: Session, lines: seq<string>, events: seq<ProxyEvent>)
    requires Faithful(encode, decode) && Carries(encode, lines, events)
    ensures OnLines(decode, parse, s, lines) == OnEvents(parse, s, events)
  {
    hide OnEvent, DataOf, White, DataLine, Faithful;
    if lines != [] {
      var n, m := |lines| - 1, |events| - 1;
      NoDataIff(lines[n]);
      if events != [] && DataLine(encode, lines[n], events[m]) && Carries(encode, lines[..n], events[..m]) {
        LinesAreEvents(encode, decode, parse, s, lines[..n], events[..m]);
        LineIsEvent(encode, decode, parse, OnLines(decode, parse, s, lines[..n]), lines[n], events[m]);
      } else {
        LinesAreEvents(encode, decode, parse, s, lines[..n], events);
      }
    }
  }

  predicate IsFinal(e: ClientEvent) {
    e.Finished? || e.Broken?
  }

  /** some holds the events of all up to and including the first final one, or all of them if
      there is none. */
  ghost predicate UpToFinal(some: seq<ClientEvent>, all: seq<ClientEvent>) {
    && some <= all
    && (forall i :: 0 <= i < |some| - 1 ==> !IsFinal(some[i]))
    && (some == all || (some != [] && IsFinal(some[|some| - 1])))
  }

  /** The events of a stream that never throws: the message is rebuilt from all of them, and what
      is pushed is their replay up to its first final event. */
  lemma {:induction false} EventsArrive(parse: JsonParser, p: Partial, events: seq<ProxyEvent>)
    requires Rebuild(parse, p, events).Some?
    ensures Replay(parse, p, events).Some?
    ensures var t := OnEvents(parse, Session(p, [], false, None), events);
            && t.partial == Rebuild(parse, p, events).value && t.thrown == None
            && UpToFinal(EraseAll(t.pushed), Replay(parse, p, events).value)
            && (t.completed <==> t.pushed != [] && IsFinal(t.pushed[|t.pushed| - 1]))
  {
    hide Process, EraseEvent;
    if events != [] {
      var init, e := events[..|events| - 1], events[|events| - 1];
      EventsArrive(parse, p, init);
      var t := OnEvents(parse, Session(p, [], false, None), init);
      var r := Process(parse, t.partial, e);
      if r.Pushed? {
        DeliveryKeeps(t.(partial := r.partial), r.event, Replay(parse, p, init).value);
      }
    } else {
      assert EraseAll([]) == [];
    }
  }

  lemma DeliveryKeeps(s: Session, e: ClientEvent, all: seq<ClientEvent>)
    requires UpToFinal(EraseAll(s.pushed), all)
    requires s.completed <==> s.pushed != [] && IsFinal(s.pushed[|s.pushed| - 1])
    ensures var t := Deliver(s, e);
            && UpToFinal(EraseAll(t.pushed), all + [EraseEvent(e)])
            && (t.completed <==> t.pushed != [] && IsFinal(t.pushed[|t.pushed| - 1]))
  {
    ErasedIsFinal(s.pushed, e);
    hide EraseEvent;
    assert EraseAll(s.pushed + [e]) == EraseAll(s.pushed) + [EraseEvent(e)];
  }

  lemma ErasedIsFinal(pushed: seq<ClientEvent>, e: ClientEvent)
    ensures IsFinal(EraseEvent(e)) <==> IsFinal(e)
    ensures forall i :: 0 <= i < |pushed| ==> (IsFinal(EraseAll(pushed)[i]) <==> IsFinal(pushed[i]))
  {
    hide Erase;
  }

  /** What the client has at first. */
  function Opened(usage: string): Session {
    Session(Partial(map[], Stop, None, usage), [], false, None)
  }

  /** End to end: the text carries one line per event, it is cut into chunks in any way, and no
      event addresses a block of another kind. Then the client's message is the one rebuilt from
      the events, and what it pushes is their replay up to the first final event. */
  lemma StreamArrives(encode: ProxyEvent -> string, decode: string -> Decoded, parse: JsonParser, usage: string,
                      chunks: seq<string>, lines: seq<string>, tail: string, events: seq<ProxyEvent>)
    requires Faithful(encode, decode) && Carries(encode, lines, events) && Addressed(events)
    requires OneLine(tail) && (forall line :: line in lines ==> OneLine(line)) && Concat(chunks) == Join(lines, tail)
    ensures var p := Opened(usage).partial;
            var t := Closed(OnLines(decode, parse, Opened(usage), Lines(Concat(chunks))), EndOfText);
            && Rebuild(parse, p, events) == Some(t.partial) && t.thrown == None
            && Replay(parse, p, events).Some? && UpToFinal(EraseAll(t.pushed), Replay(parse, p, events).value)
  {
    hide OnLines, OnEvents, Rebuild, Replay, Lines, Join, Concat, Carries, Faithful, Addressed, EraseAll, UpToFinal;
    JoinIsInverse(lines, tail);
    LinesAreEvents(encode, decode, parse, Opened(usage), lines, events);
    RebuildsIffAddressed(parse, Opened(usage).partial, events);
    EventsArrive(parse, Opened(usage).partial, events);
  }

  /** From provider to client: if every event of the provider shows no more than was sent by then,
      and a final event comes last or not at all, the client pushes the provider's events. */
  lemma ProviderArrives(encode: ProxyEvent -> string, decode: string -> Decoded, parse: JsonParser, usage: string,
                        chunks: seq<string>, lines: seq<string>, tail: string, events: seq<ClientEvent>)
    requires Faithful(encode, decode) && Carries(encode, lines, StripAll(events))
    requires OneLine(tail) && (forall line :: line in lines ==> OneLine(line)) && Concat(chunks) == Join(lines, tail)
    requires NothingHeldBack(parse, Opened(usage).partial, events)
    requires forall i :: 0 <= i < |events| - 1 ==> !IsFinal(events[i])
    ensures var t := Closed(OnLines(decode, parse, Opened(usage), Lines(Concat(chunks))), EndOfText);
            EraseAll(t.pushed) == EraseAll(events) && t.thrown == None
  {
    hide OnLines, Rebuild, Replay, Lines, Join, Concat, Carries, Faithful, Addressed, NothingHeldBack, EraseEvent;
    RoundTripIff(parse, Opened(usage).partial, events);
    ReplayAtMost(parse, Opened(usage).partial, StripAll(events));
    RebuildsIffAddressed(parse, Opened(usage).partial, StripAll(events));
    StreamArrives(encode, decode, parse, usage, chunks, lines, tail, StripAll(events));
    var t := Closed(OnLines(decode, parse, Opened(usage), Lines(Concat(chunks))), EndOfText);
    if EraseAll(t.pushed) != EraseAll(events) {
      var k := |t.pushed| - 1;
      assert k < |events| - 1 && EraseAll(t.pushed)[k] == EraseAll(events)[k];
      if |events| > 0 {
        ErasedIsFinal(events, events[0]);
      }
    }
  }

  /** The client. Its fields are the shared partial message and the event stream. */
  class ProxyClient {
    const decode: string -> Decoded
    const parse: JsonParser
    var content: map<int, Block>
    var stopReason: StopReason
    var errorMessage: Option<string>
    var usage: string
    var pushed: seq<ClientEvent>
    var completed: bool

    function Message(): Partial
      reads this`content, this`stopReason, this`errorMessage, this`usage
    {
      Partial(content, stopReason, errorMessage, usage)
    }

    function State(thrown: Option<string>): Session
      reads this
    {
      Session(Message(), pushed, completed, thrown)
    }

    constructor (decode: string -> Decoded, parse: JsonParser, usage: string)
      ensures State(None) == Session(Partial(map[], Stop, None, usage), [], false, None)
      ensures this.decode == decode && this.parse == parse
    {
      this.decode, this.parse := decode, parse;
      content, stopReason, errorMessage, this.usage := map[], Stop, None, usage;
      pushed, completed := [], false;
    }

    method Push(e: ClientEvent)
      modifies this`pushed, this`completed
      ensures forall thrown :: State(thrown) == Deliver(old(State(thrown)), e)
    {
      if !completed {
        pushed := pushed + [e];
        completed := e.Finished? || e.Broken?;
      }
    }

    /** processProxyEvent: updates the shared message and says what to push. */
    method ProcessProxyEvent(e: ProxyEvent) returns (r: Processed)
      modifies this`content, this`stopReason, this`errorMessage, this`usage
      ensures r == Process(parse, old(Message()), e)
      ensures Message() == if r.Thrown? then old(Message()) else r.partial
    {
      match e {
        case Start => r := Pushed(Message(), Started(Message()));
        case TextStart(i) =>
          content := content[i := Text("", None)];
          r := Pushed(Message(), BlockStarted(TextKind, i, Message()));
        case TextDelta(i, delta) =>
          if i !in content || !content[i].Text? {
            return Thrown("Received text_delta for non-text content");
          }
          content := content[i := content[i].(text := content[i].text + delta)];
          r := Pushed(Message(), BlockDelta(TextKind, i, delta, Message()));
        case TextEnd(i, signature) =>
          if i !in content || !content[i].Text? {
            return Thrown("Received text_end for non-text content");
          }
          content := content[i := content[i].(textSignature := signature)];
          r := Pushed(Message(), BlockEnded(TextKind, i, content[i].text, Message()));
        case ThinkingStart(_) => r := ProcessThinking(e);
        case ThinkingDelta(_, _) => r := ProcessThinking(e);
        case ThinkingEnd(_, _) => r := ProcessThinking(e);
        case ToolCallStart(_, _, _) => r := ProcessToolCall(e);
        case ToolCallDelta(_, _) => r := ProcessToolCall(e);
        case ToolCallEnd(_) => r := ProcessToolCall(e);
        case Done(reason, usage) =>
          stopReason, this.usage := reason, usage;
          r := Pushed(Message(), Finished(reason, Message()));
        case Failed(reason, message, usage) =>
          stopReason, errorMessage, this.usage := reason, message, usage;
          r := Pushed(Message(), Broken(reason, Message()));
        case Unknown(_) => r := Silent(Message());
      }
    }

    /** The thinking cases of processProxyEvent. */
    method ProcessThinking(e: ProxyEvent) returns (r: Processed)
      requires e.ThinkingStart? || e.ThinkingDelta? || e.ThinkingEnd?
      modifies this`content
      ensures r == Process(parse, old(Message()), e)
      ensures Message() == if r.Thrown? then old(Message()) else r.partial
    {
      match e {
        case ThinkingStart(i) =>
          content := content[i := Thinking("", None)];
          r := Pushed(Message(), BlockStarted(ThinkingKind, i, Message()));
        case ThinkingDelta(i, delta) =>
          if i !in content || !content[i].Thinking? {
            return Thrown("Received thinking_delta for non-thinking content");
          }
          content := content[i := content[i].(thinking := content[i].thinking + delta)];
          r := Pushed(Message(), BlockDelta(ThinkingKind, i, delta, Message()));
        case ThinkingEnd(i, signature) =>
          if i !in content || !content[i].Thinking? {
            return Thrown("Received thinking_end for non-thinking content");
          }
          content := content[i := content[i].(thinkingSignature := signature)];
          r := Pushed(Message(), BlockEnded(ThinkingKind, i, content[i].thinking, Message()));
      }
    }

    /** The tool call cases of processProxyEvent. */
    method ProcessToolCall(e: ProxyEvent) returns (r: Processed)
      requires e.ToolCallStart? || e.ToolCallDelta? || e.ToolCallEnd?
      modifies this`content
      ensures r == Process(parse, old(Message()), e)
      ensures Message() == if r.Thrown? then old(Message()) else r.partial
    {
      match e {
        case ToolCallStart(i, id, name) =>
          content := content[i := ToolCall(id, name, EMPTY_OBJECT, Some(""))];
          r := Pushed(Message(), BlockStarted(CallKind, i, Message()));
        case ToolCallDelta(i, delta) =>
          if i !in content || !content[i].ToolCall? {
            return Thrown("Received toolcall_delta for non-toolCall content");
          }
          var json := AppendJson(content[i].partialJson, delta);
          content := content[i := content[i].(partialJson := Some(json), arguments := parse(json).GetOr(EMPTY_OBJECT))];
          r := Pushed(Message(), BlockDelta(CallKind, i, delta, Message()));
        case ToolCallEnd(i) =>
          if i !in content || !content[i].ToolCall? {
            return Silent(Message());
          }
          content := content[i := content[i].(partialJson := None)];
          r := Pushed(Message(), CallEnded(i, content[i], Message()));
      }
    }

    /** One line of the read loop. */
    method HandleLine(line: string) returns (thrown: Option<string>)
      modifies this
      ensures State(thrown) == OnLine(decode, parse, old(State(None)), line)
    {
      hide Process, Deliver;
      var data := DataOf(line);
      if data.None? {
        return None;
      }
      var decoded := decode(data.value);
      if decoded.BadJson? {
        return Some(decoded.message);
      }
      var r := ProcessProxyEvent(decoded.event);
      match r {
        case Thrown(message) => return Some(message);
        case Silent(_) => return None;
        case Pushed(_, event) =>
          Push(event);
          return None;
      }
    }

    /** The catch clause of streamProxy. */
    method FailWith(reason: StopReason, message: string)
      modifies this
      ensures State(Some(message)) == Fail(old(State(None)), reason, message)
    {
      stopReason, errorMessage := reason, Some(message);
      Push(Broken(reason, Message()));
    }

    /** The read loop over any cutting of the response into chunks, until it ends, is aborted
        or cannot be read on: what the client ends up with is a function of the text that was
        read and of the ending. */
    method ReadAll(chunks: seq<string>, ending: Ending) returns (thrown: Option<string>)
      modifies this
      ensures State(thrown) == Closed(OnLines(decode, parse, old(State(None)), Lines(Concat(chunks))), ending)
    {
      hide OnLine, OnLines, Lines, Tail, Split, Deliver, Concat, Frame;
      ghost var s0 := State(None);
      var buffer := "";
      NothingFramed(decode, parse, s0);
      FrameIsWhole(chunks);
      assert chunks[..|chunks|] == chunks;
      for k := 0 to |chunks|
        invariant Frame(chunks[..k]).buffer == buffer
        invariant State(None) == OnLines(decode, parse, s0, Frame(chunks[..k]).lines)
      {
        FrameNext(chunks, k);
        ghost var before := Frame(chunks[..k]).lines;
        buffer := buffer + chunks[k];
        var lines := Lines(buffer);
        buffer := Tail(buffer);
        assert before + lines[..0] == before;
        for j := 0 to |lines|
          invariant State(None) == OnLines(decode, parse, s0, before + lines[..j])
        {
          OnLinesNext(decode, parse, s0, before + lines[..j], lines[j]);
          assert before + lines[..j] + [lines[j]] == before + lines[..j + 1];
          thrown := HandleLine(lines[j]);
          if thrown.Some? {
            LinesStay(chunks, k + 1);
            assert before + lines[..j + 1] <= before + lines;
            ThrownStays(decode, parse, s0, before + lines[..j + 1], Frame(chunks).lines);
            FailWith(Error, thrown.value);
            return thrown;
          }
        }
        assert lines[..|lines|] == lines;
      }
      match ending {
        case EndOfText => thrown := None;
        case AbortSeen =>
          FailWith(Aborted, ABORT_MESSAGE);
          thrown := Some(ABORT_MESSAGE);
        case ReadFailed(message, aborted) =>
          FailWith(if aborted then Aborted else Error, message);
          thrown := Some(message);
      }
    }
  }

  lemma NothingFramed(decode: string -> Decoded, parse: JsonParser, s: Session)
    ensures Frame([]) == Framed([], "") && OnLines(decode, parse, s, []) == s
  {
  }

  lemma FrameNext(chunks: seq<string>, k: nat)
    requires k < |chunks|
    ensures Frame(chunks[..k + 1]) ==
            Framed(Frame(chunks[..k]).lines + Lines(Frame(chunks[..k]).buffer + chunks[k]),
                   Tail(Frame(chunks[..k]).buffer + chunks[k]))
  {
    assert chunks[..k + 1][..k] == chunks[..k];
  }
}
