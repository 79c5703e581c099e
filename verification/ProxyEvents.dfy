/** Rebuilding the partial assistant message from stripped proxy events: processProxyEvent of
    packages/agent/src/proxy.ts. Parsing of streamed JSON is a parameter. */
module ProxyEvents {
  import opened Basics

  /** parseStreamingJson: None for a falsy result, which the client replaces by {}. */
  type JsonParser = string -> Option<string>

  const EMPTY_OBJECT := "{}"

  datatype Block =
    | Text(text: string, textSignature: Option<string>)
    | Thinking(thinking: string, thinkingSignature: Option<string>)
    | ToolCall(id: string, name: string, arguments: string, partialJson: Option<string>)

  datatype Kind = TextKind | ThinkingKind | CallKind

  /** The shared partial message; content is a sparse array. */
  datatype Partial = Partial(content: map<int, Block>, stopReason: StopReason, errorMessage: Option<string>,
                             usage: string)

  /** What the server sends. */
  datatype ProxyEvent =
    | Start
    | TextStart(index: int)
    | TextDelta(index: int, delta: string)
    | TextEnd(index: int, signature: Option<string>)
    | ThinkingStart(index: int)
    | ThinkingDelta(index: int, delta: string)
    | ThinkingEnd(index: int, signature: Option<string>)
    | ToolCallStart(index: int, id: string, name: string)
    | ToolCallDelta(index: int, delta: string)
    | ToolCallEnd(index: int)
    | Done(reason: StopReason, usage: string)
    | Failed(reason: StopReason, errorMessage: Option<string>, usage: string)
    | Unknown(kind: string)

  /** What the client pushes, with the partial message as it is then. */
  datatype ClientEvent =
    | Started(partial: Partial)
    | BlockStarted(kind: Kind, index: int, partial: Partial)
    | BlockDelta(kind: Kind, index: int, delta: string, partial: Partial)
    | BlockEnded(kind: Kind, index: int, text: string, partial: Partial)  // text_end, thinking_end
    | CallEnded(index: int, call: Block, partial: Partial)        // toolcall_end
    | Finished(reason: StopReason, partial: Partial)
    | Broken(reason: StopReason, partial: Partial)

  /** A processed event: the partial message after it, and the event to push, if any. */
  datatype Processed =
    | Pushed(partial: Partial, event: ClientEvent)
    | Silent(partial: Partial)
    | Thrown(message: string)

  function Put(p: Partial, i: int, b: Block): Partial {
    p.(content := p.content[i := b])
  }

  /** A call's JSON text with a delta appended; a delta after toolcall_end, which has deleted
      the text, is appended to the word undefined. */
  function AppendJson(json: Option<string>, delta: string): string {
    json.GetOr("undefined") + delta
  }

  function Process(parse: JsonParser, p: Partial, e: ProxyEvent): Processed {
    match e
    case Start => Pushed(p, Started(p))
    case TextStart(i) => var q := Put(p, i, Text("", None)); Pushed(q, BlockStarted(TextKind, i, q))
    case TextDelta(i, delta) =>
      if i in p.content && p.content[i].Text? then
        var q := Put(p, i, p.content[i].(text := p.content[i].text + delta));
        Pushed(q, BlockDelta(TextKind, i, delta, q))
      else Thrown("Received text_delta for non-text content")
    case TextEnd(i, signature) =>
      if i in p.content && p.content[i].Text? then
        var q := Put(p, i, p.content[i].(textSignature := signature));
        Pushed(q, BlockEnded(TextKind, i, p.content[i].text, q))
      else Thrown("Received text_end for non-text content")
    case ThinkingStart(i) => var q := Put(p, i, Thinking("", None)); Pushed(q, BlockStarted(ThinkingKind, i, q))
    case ThinkingDelta(i, delta) =>
      if i in p.content && p.content[i].Thinking? then
        var q := Put(p, i, p.content[i].(thinking := p.content[i].thinking + delta));
        Pushed(q, BlockDelta(ThinkingKind, i, delta, q))
      else Thrown("Received thinking_delta for non-thinking content")
    case ThinkingEnd(i, signature) =>
      if i in p.content && p.content[i].Thinking? then
        var q := Put(p, i, p.content[i].(thinkingSignature := signature));
        Pushed(q, BlockEnded(ThinkingKind, i, p.content[i].thinking, q))
      else Thrown("Received thinking_end for non-thinking content")
    case ToolCallStart(i, id, name) =>
      var q := Put(p, i, ToolCall(id, name, EMPTY_OBJECT, Some("")));
      Pushed(q, BlockStarted(CallKind, i, q))
    case ToolCallDelta(i, delta) =>
      if i in p.content && p.content[i].ToolCall? then
        var json := AppendJson(p.content[i].partialJson, delta);
        var q := Put(p, i, p.content[i].(partialJson := Some(json), arguments := parse(json).GetOr(EMPTY_OBJECT)));
        Pushed(q, BlockDelta(CallKind, i, delta, q))
      else Thrown("Received toolcall_delta for non-toolCall content")
    case ToolCallEnd(i) =>
      if i in p.content && p.content[i].ToolCall? then
        var q := Put(p, i, p.content[i].(partialJson := None));
        Pushed(q, CallEnded(i, q.content[i], q))
      else Silent(p)
    case Done(reason, usage) => var q := p.(stopReason := reason, usage := usage); Pushed(q, Finished(reason, q))
    case Failed(reason, errorMessage, usage) =>
      var q := p.(stopReason := reason, errorMessage := errorMessage, usage := usage);
      Pushed(q, Broken(reason, q))
    case Unknown(_) => Silent(p)
  }

  /** The partial message after a sequence of events, unless one of them threw. */
  function Rebuild(parse: JsonParser, p: Partial, events: seq<ProxyEvent>): Option<Partial> {
    if events == [] then Some(p)
    else
      match Rebuild(parse, p, events[..|events| - 1])
      case None => None
      case Some(q) =>
        match Process(parse, q, events[|events| - 1])
        case Thrown(_) => None
        case Pushed(r, _) => Some(r)
        case Silent(r) => Some(r)
  }

  // ---------------------------------------------------------------- one index at a time

  /** The kind a start event opens, and at which index. */
  function Opens(e: ProxyEvent, i: int): Option<Kind> {
    match e
    case TextStart(j) => if j == i then Some(TextKind) else None
    case ThinkingStart(j) => if j == i then Some(ThinkingKind) else None
    case ToolCallStart(j, _, _) => if j == i then Some(CallKind) else None
    case _ => None
  }

  /** The kind of block an event needs at its index in order not to throw. */
  function Needs(e: ProxyEvent): Option<(int, Kind)> {
    match e
    case TextDelta(i, _) => Some((i, TextKind))
    case TextEnd(i, _) => Some((i, TextKind))
    case ThinkingDelta(i, _) => Some((i, ThinkingKind))
    case ThinkingEnd(i, _) => Some((i, ThinkingKind))
    case ToolCallDelta(i, _) => Some((i, CallKind))
    case _ => None
  }

  /** The kind opened by the latest start at index i. */
  function KindAt(events: seq<ProxyEvent>, i: int): Option<Kind> {
    if events == [] then None
    else
      var kind := Opens(events[|events| - 1], i);
      if kind.Some? then kind else KindAt(events[..|events| - 1], i)
  }

  /** Every delta and every text or thinking end addresses a block of its own kind. */
  ghost predicate Addressed(events: seq<ProxyEvent>) {
    forall k :: 0 <= k < |events| && Needs(events[k]).Some? ==>
      KindAt(events[..k], Needs(events[k]).value.0) == Some(Needs(events[k]).value.1)
  }

  /** The deltas an event adds at index i, whatever its kind. */
  function DeltaAt(e: ProxyEvent, i: int): string {
    if (e.TextDelta? || e.ThinkingDelta? || e.ToolCallDelta?) && e.index == i then e.delta else ""
  }

  /** In-order concatenation of the deltas addressed to index i since its latest start,
      reading the events of other indexes past. */
  function TextSince(events: seq<ProxyEvent>, i: int): string {
    if events == [] then ""
    else
      var e := events[|events| - 1];
      if Opens(e, i).Some? then "" else TextSince(events[..|events| - 1], i) + DeltaAt(e, i)
  }

  /** The signature set at index i since its latest start, if any. */
  function SignatureSince(events: seq<ProxyEvent>, i: int): Option<string> {
    if events == [] then None
    else
      var e := events[|events| - 1];
      if Opens(e, i).Some? then None
      else if (e.TextEnd? || e.ThinkingEnd?) && e.index == i then e.signature
      else SignatureSince(events[..|events| - 1], i)
  }

  /** Whether a call delta came at index i since its latest start. */
  predicate DeltaSince(events: seq<ProxyEvent>, i: int) {
    events != [] &&
    var e := events[|events| - 1];
    Opens(e, i).None? && ((e.ToolCallDelta? && e.index == i) || DeltaSince(events[..|events| - 1], i))
  }

  /** Whether the call at index i has ended since its latest start and had no delta since. */
  predicate EndedAt(events: seq<ProxyEvent>, i: int) {
    events != [] &&
    var e := events[|events| - 1];
    Opens(e, i).None? && !(e.ToolCallDelta? && e.index == i) &&
    ((e.ToolCallEnd? && e.index == i) || EndedAt(events[..|events| - 1], i))
  }

  /** The text a call had gathered when a delta last came to it after its end, if one did since
      its latest start. */
  function Restarted(events: seq<ProxyEvent>, i: int): (before: Option<string>)
    ensures before.Some? ==> before.value <= TextSince(events, i)
  {
    if events == [] then None
    else
      var init, e := events[..|events| - 1], events[|events| - 1];
      if Opens(e, i).Some? then None
      else if e.ToolCallDelta? && e.index == i && EndedAt(init, i) then Some(TextSince(init, i))
      else Restarted(init, i)
  }

  /** The JSON text of a call: its deltas, except that a delta after the call's end starts the
      text over at the word undefined. */
  function JsonText(events: seq<ProxyEvent>, i: int): string {
    var before := Restarted(events, i);
    if before.None? then TextSince(events, i) else "undefined" + TextSince(events, i)[|before.value|..]
  }

  /** The id and name given by the latest start at index i. */
  function CallSince(events: seq<ProxyEvent>, i: int): (string, string) {
    if events == [] then ("", "")
    else
      var e := events[|events| - 1];
      if e.ToolCallStart? && e.index == i then (e.id, e.name) else CallSince(events[..|events| - 1], i)
  }

  /** What index i must hold after events, described without replaying them. */
  function BlockSince(parse: JsonParser, events: seq<ProxyEvent>, i: int): Option<Block> {
    match KindAt(events, i)
    case None => None
    case Some(TextKind) => Some(Text(TextSince(events, i), SignatureSince(events, i)))
    case Some(ThinkingKind) => Some(Thinking(TextSince(events, i), SignatureSince(events, i)))
    case Some(CallKind) =>
      var json := JsonText(events, i);
      Some(ToolCall(CallSince(events, i).0, CallSince(events, i).1,
                    if DeltaSince(events, i) then parse(json).GetOr(EMPTY_OBJECT) else EMPTY_OBJECT,
                    if EndedAt(events, i) then None else Some(json)))
  }

  function At(p: Partial, i: int): Option<Block> {
    if i in p.content then Some(p.content[i]) else None
  }

  function KindOf(b: Option<Block>): Option<Kind> {
    match b
    case None => None
    case Some(Text(_, _)) => Some(TextKind)
    case Some(Thinking(_, _)) => Some(ThinkingKind)
    case Some(ToolCall(_, _, _, _)) => Some(CallKind)
  }

  lemma Init(events: seq<ProxyEvent>, e: ProxyEvent)
    ensures (events + [e])[..|events|] == events
  {
  }

  lemma StepKind(parse: JsonParser, p: Partial, e: ProxyEvent, i: int)
    requires !Process(parse, p, e).Thrown?
    ensures KindOf(At(Process(parse, p, e).partial, i)) ==
            (if Opens(e, i).Some? then Opens(e, i) else KindOf(At(p, i)))
  {
  }

  lemma StepThrows(parse: JsonParser, p: Partial, e: ProxyEvent)
    ensures Process(parse, p, e).Thrown? <==>
            Needs(e).Some? && KindOf(At(p, Needs(e).value.0)) != Some(Needs(e).value.1)
  {
  }

  /** What a misaddressed event throws. */
  lemma ThrownByText(parse: JsonParser, p: Partial, i: int, delta: string, signature: Option<string>)
    requires KindOf(At(p, i)) != Some(TextKind)
    ensures Process(parse, p, TextDelta(i, delta)) == Thrown("Received text_delta for non-text content")
    ensures Process(parse, p, TextEnd(i, signature)) == Thrown("Received text_end for non-text content")
  {
  }

  lemma ThrownByThinking(parse: JsonParser, p: Partial, i: int, delta: string, signature: Option<string>)
    requires KindOf(At(p, i)) != Some(ThinkingKind)
    ensures Process(parse, p, ThinkingDelta(i, delta)) == Thrown("Received thinking_delta for non-thinking content")
    ensures Process(parse, p, ThinkingEnd(i, signature)) == Thrown("Received thinking_end for non-thinking content")
  {
  }

  lemma ThrownByCall(parse: JsonParser, p: Partial, i: int, delta: string)
    requires KindOf(At(p, i)) != Some(CallKind)
    ensures Process(parse, p, ToolCallDelta(i, delta)) == Thrown("Received toolcall_delta for non-toolCall content")
  {
  }

  /** The kind of each rebuilt block is the kind of the latest start at its index. */
  lemma {:induction false} KindsTracked(parse: JsonParser, p: Partial, events: seq<ProxyEvent>, i: int)
    requires p.content == map[] && Rebuild(parse, p, events).Some?
    ensures KindOf(At(Rebuild(parse, p, events).value, i)) == KindAt(events, i)
  {
    hide Process, Opens;
    if events != [] {
      var init := events[..|events| - 1];
      KindsTracked(parse, p, init, i);
      StepKind(parse, Rebuild(parse, p, init).value, events[|events| - 1], i);
    }
  }

  /** Rebuilding throws on no other sequence than one with a misaddressed event. */
  lemma {:induction false} RebuildsIffAddressed(parse: JsonParser, p: Partial, events: seq<ProxyEvent>)
    requires p.content == map[]
    ensures Rebuild(parse, p, events).Some? <==> Addressed(events)
  {
    hide Process, Needs, KindAt, Addressed;
    if events == [] {
      NothingAddressed();
    } else {
      var init, e := events[..|events| - 1], events[|events| - 1];
      RebuildsIffAddressed(parse, p, init);
      AddressedNext(init, e);
      assert events == init + [e];
      if Rebuild(parse, p, init).Some? {
        StepThrows(parse, Rebuild(parse, p, init).value, e);
        if Needs(e).Some? {
          KindsTracked(parse, p, init, Needs(e).value.0);
        }
      }
    }
  }

  lemma NothingAddressed()
    ensures Addressed([])
  {
  }

  lemma AddressedNext(events: seq<ProxyEvent>, e: ProxyEvent)
    ensures Addressed(events + [e]) <==>
            Addressed(events) && (Needs(e).Some? ==> KindAt(events, Needs(e).value.0) == Some(Needs(e).value.1))
  {
    hide KindAt, Needs;
    var longer := events + [e];
    assert forall k :: 0 <= k < |events| ==> longer[..k] == events[..k];
    assert longer[..|events|] == events;
    assert longer[|events|] == e;
    if Addressed(longer) {
      forall k | 0 <= k < |events| && Needs(events[k]).Some?
        ensures KindAt(events[..k], Needs(events[k]).value.0) == Some(Needs(events[k]).value.1)
      {
        assert longer[k] == events[k];
      }
    }
  }

  lemma StepText(events: seq<ProxyEvent>, e: ProxyEvent, i: int)
    ensures TextSince(events + [e], i) == if Opens(e, i).Some? then "" else TextSince(events, i) + DeltaAt(e, i)
    ensures KindAt(events + [e], i) == if Opens(e, i).Some? then Opens(e, i) else KindAt(events, i)
    ensures SignatureSince(events + [e], i) ==
            if Opens(e, i).Some? then None
            else if (e.TextEnd? || e.ThinkingEnd?) && e.index == i then e.signature
            else SignatureSince(events, i)
  {
    Init(events, e);
  }

  lemma StepCalls(events: seq<ProxyEvent>, e: ProxyEvent, i: int)
    ensures DeltaSince(events + [e], i) <==>
            Opens(e, i).None? && ((e.ToolCallDelta? && e.index == i) || DeltaSince(events, i))
    ensures EndedAt(events + [e], i) <==>
            Opens(e, i).None? && !(e.ToolCallDelta? && e.index == i) &&
            ((e.ToolCallEnd? && e.index == i) || EndedAt(events, i))
    ensures Restarted(events + [e], i) ==
            if Opens(e, i).Some? then None
            else if e.ToolCallDelta? && e.index == i && EndedAt(events, i) then Some(TextSince(events, i))
            else Restarted(events, i)
    ensures CallSince(events + [e], i) ==
            if e.ToolCallStart? && e.index == i then (e.id, e.name) else CallSince(events, i)
  {
    hide TextSince;
    Init(events, e);
  }

  lemma StepJson(events: seq<ProxyEvent>, e: ProxyEvent, i: int)
    requires !((e.TextDelta? || e.ThinkingDelta?) && e.index == i)
    ensures JsonText(events + [e], i) ==
            if Opens(e, i).Some? then ""
            else if e.ToolCallDelta? && e.index == i then
              AppendJson(if EndedAt(events, i) then None else Some(JsonText(events, i)), e.delta)
            else JsonText(events, i)
    ensures EndedAt(events + [e], i) <==>
            Opens(e, i).None? && !(e.ToolCallDelta? && e.index == i) &&
            ((e.ToolCallEnd? && e.index == i) || EndedAt(events, i))
    ensures DeltaSince(events + [e], i) <==>
            Opens(e, i).None? && ((e.ToolCallDelta? && e.index == i) || DeltaSince(events, i))
    ensures CallSince(events + [e], i) ==
            if e.ToolCallStart? && e.index == i then (e.id, e.name) else CallSince(events, i)
  {
    hide TextSince, Restarted, EndedAt, DeltaSince, CallSince, KindAt, SignatureSince;
    StepText(events, e, i);
    StepCalls(events, e, i);
    TextsAppend(TextSince(events, i), Restarted(events, i), DeltaAt(e, i));
  }

  lemma TextsAppend(text: string, before: Option<string>, delta: string)
    requires before.Some? ==> before.value <= text
    ensures text + "" == text
    ensures before.Some? ==>
              "undefined" + (text + delta)[|before.value|..] == "undefined" + text[|before.value|..] + delta
    ensures (text + delta)[|text|..] == delta
  {
    if before.Some? {
      assert (text + delta)[|before.value|..] == text[|before.value|..] + delta;
    }
  }

  lemma StepBlock(parse: JsonParser, events: seq<ProxyEvent>, p: Partial, e: ProxyEvent, i: int)
    requires !Process(parse, p, e).Thrown?
    requires At(p, i) == BlockSince(parse, events, i)
    ensures At(Process(parse, p, e).partial, i) == BlockSince(parse, events + [e], i)
  {
    hide TextSince, KindAt, SignatureSince, JsonText, EndedAt, DeltaSince, CallSince;
    StepText(events, e, i);
    assert TextSince(events, i) + "" == TextSince(events, i);
    if KindAt(events + [e], i) == Some(CallKind) {
      StepJson(events, e, i);
    }
  }

  /** Reconstruction: every rebuilt block holds the in-order concatenation of its own deltas,
      however the indexes interleave, its signature, and for a tool call the parse of its
      JSON text; an index never started holds nothing. */
  lemma {:induction false} Reconstruction(parse: JsonParser, p: Partial, events: seq<ProxyEvent>, i: int)
    requires p.content == map[] && Rebuild(parse, p, events).Some?
    ensures At(Rebuild(parse, p, events).value, i) == BlockSince(parse, events, i)
  {
    hide Process, BlockSince;
    if events != [] {
      var init, e := events[..|events| - 1], events[|events| - 1];
      assert events == init + [e];
      Reconstruction(parse, p, init, i);
      assert events[..|events| - 1] == init;
      StepBlock(parse, init, Rebuild(parse, p, init).value, e, i);
    } else {
      NothingSince(parse, i);
    }
  }

  lemma NothingSince(parse: JsonParser, i: int)
    ensures BlockSince(parse, [], i) == None
  {
  }

  /** A delta came to an ended call at index i, and nothing was started there since. */
  ghost predicate LateDelta(events: seq<ProxyEvent>, i: int, k: nat)
    requires k < |events|
  {
    && events[k].ToolCallDelta? && events[k].index == i && EndedAt(events[..k], i)
    && forall j :: k < j < |events| ==> Opens(events[j], i).None?
  }

  lemma {:induction false} RestartedIffLate(events: seq<ProxyEvent>, i: int)
    ensures Restarted(events, i).Some? <==> exists k: nat :: k < |events| && LateDelta(events, i, k)
  {
    hide EndedAt, TextSince;
    if events != [] {
      var n := |events| - 1;
      var init, e := events[..n], events[n];
      RestartedIffLate(init, i);
      if Opens(e, i).None? {
        forall k: nat | k < n ensures LateDelta(events, i, k) <==> LateDelta(init, i, k) {
          assert init[..k] == events[..k] && init[k] == events[k];
          assert forall j :: k < j < n ==> init[j] == events[j];
        }
        assert LateDelta(events, i, n) <==> e.ToolCallDelta? && e.index == i && EndedAt(init, i);
      } else {
        assert forall k: nat :: k < n ==> !LateDelta(events, i, k);
      }
    }
  }

  /** A call's JSON text is the concatenation of its deltas exactly when no delta came after
      its end, or what it had gathered by then happens to be the word undefined itself. */
  lemma JsonIsConcatenationIff(events: seq<ProxyEvent>, i: int)
    ensures JsonText(events, i) == TextSince(events, i) <==>
            (forall k: nat :: k < |events| ==> !LateDelta(events, i, k)) || Restarted(events, i) == Some("undefined")
  {
    hide LateDelta, Restarted;
    RestartedIffLate(events, i);
    var text, before := TextSince(events, i), Restarted(events, i);
    if before.Some? {
      assert before.value <= text;
      assert before.value + text[|before.value|..] == text;
      if JsonText(events, i) == text {
        assert |before.value| == |"undefined"|;
        assert before.value == text[..|before.value|] == "undefined";
      }
    }
  }

  function CallEvents(id: string, name: string): seq<ProxyEvent> {
    [] + [ToolCallStart(0, id, name)] + [ToolCallDelta(0, "a")] + [ToolCallEnd(0)]
  }

  lemma EndedExample(id: string, name: string)
    ensures var events := CallEvents(id, name);
            && Addressed(events) && KindAt(events, 0) == Some(CallKind) && TextSince(events, 0) == "a"
            && EndedAt(events, 0) && CallSince(events, 0) == (id, name)
  {
    var start, a, end := ToolCallStart(0, id, name), ToolCallDelta(0, "a"), ToolCallEnd(0);
    hide TextSince, KindAt, Addressed, SignatureSince, JsonText, DeltaSince, EndedAt, CallSince;
    StepText([], start, 0);
    StepText([] + [start], a, 0);
    StepText([] + [start] + [a], end, 0);
    StepJson([], start, 0);
    StepJson([] + [start], a, 0);
    StepJson([] + [start] + [a], end, 0);
    NothingAddressed();
    AddressedNext([], start);
    AddressedNext([] + [start], a);
    AddressedNext([] + [start] + [a], end);
  }

  /** A delta after the end of its call is appended to the word undefined. */
  lemma LateDeltaExample(parse: JsonParser, p: Partial, id: string, name: string)
    requires p.content == map[]
    ensures var events := CallEvents(id, name) + [ToolCallDelta(0, "b")];
            && TextSince(events, 0) == "ab"
            && Rebuild(parse, p, events).Some?
            && At(Rebuild(parse, p, events).value, 0)
               == Some(ToolCall(id, name, parse("undefinedb").GetOr(EMPTY_OBJECT), Some("undefinedb")))
  {
    hide TextSince, KindAt, Addressed, JsonText, EndedAt, CallEvents, DeltaSince, CallSince, SignatureSince, Rebuild;
    var events, b := CallEvents(id, name), ToolCallDelta(0, "b");
    EndedExample(id, name);
    assert "a" + "b" == "ab" && "undefined" + "b" == "undefinedb";
    StepText(events, b, 0);
    StepJson(events, b, 0);
    AddressedNext(events, b);
    RebuildsIffAddressed(parse, p, events + [b]);
    Reconstruction(parse, p, events + [b], 0);
  }

  /** The events addressed to index i. */
  function Only(events: seq<ProxyEvent>, i: int): seq<ProxyEvent> {
    if events == [] then []
    else
      var e := events[|events| - 1];
      Only(events[..|events| - 1], i) + if Addresses(e, i) then [e] else []
  }

  predicate Addresses(e: ProxyEvent, i: int) {
    !e.Start? && !e.Done? && !e.Failed? && !e.Unknown? && e.index == i
  }

  lemma NotAddressed(e: ProxyEvent, i: int)
    requires !Addresses(e, i)
    ensures Opens(e, i).None? && DeltaAt(e, i) == ""
    ensures !((e.TextEnd? || e.ThinkingEnd?) && e.index == i)
    ensures !((e.ToolCallStart? || e.ToolCallDelta? || e.ToolCallEnd?) && e.index == i)
  {
  }

  lemma {:induction false} OnlyMattersText(events: seq<ProxyEvent>, i: int)
    ensures KindAt(Only(events, i), i) == KindAt(events, i)
    ensures TextSince(Only(events, i), i) == TextSince(events, i)
    ensures SignatureSince(Only(events, i), i) == SignatureSince(events, i)
  {
    hide KindAt, TextSince, SignatureSince, Addresses, Opens, DeltaAt;
    if events != [] {
      var init, e := events[..|events| - 1], events[|events| - 1];
      OnlyMattersText(init, i);
      StepText(init, e, i);
      assert init + [e] == events;
      if Addresses(e, i) {
        StepText(Only(init, i), e, i);
      } else {
        NotAddressed(e, i);
        assert Only(init, i) + [] == Only(init, i);
        assert TextSince(init, i) + "" == TextSince(init, i);
      }
    }
  }

  lemma {:induction false} OnlyMattersCalls(events: seq<ProxyEvent>, i: int)
    ensures DeltaSince(Only(events, i), i) == DeltaSince(events, i)
    ensures EndedAt(Only(events, i), i) == EndedAt(events, i)
    ensures Restarted(Only(events, i), i) == Restarted(events, i)
    ensures CallSince(Only(events, i), i) == CallSince(events, i)
  {
    hide TextSince, DeltaSince, EndedAt, Restarted, CallSince, Addresses, Opens;
    if events != [] {
      var init, e := events[..|events| - 1], events[|events| - 1];
      OnlyMattersCalls(init, i);
      OnlyMattersText(init, i);
      StepCalls(init, e, i);
      assert init + [e] == events;
      if Addresses(e, i) {
        StepCalls(Only(init, i), e, i);
      } else {
        NotAddressed(e, i);
        assert Only(init, i) + [] == Only(init, i);
      }
    }
  }

  lemma OnlyMatters(parse: JsonParser, events: seq<ProxyEvent>, i: int)
    ensures BlockSince(parse, Only(events, i), i) == BlockSince(parse, events, i)
  {
    hide KindAt, TextSince, SignatureSince, DeltaSince, EndedAt, Restarted, CallSince, Only;
    OnlyMattersText(events, i);
    OnlyMattersCalls(events, i);
  }

  /** Interleaving independence: two sequences that agree on the events of index i rebuild
      the same block there. */
  lemma InterleavingIndependence(parse: JsonParser, p: Partial, events: seq<ProxyEvent>, other: seq<ProxyEvent>, i: int)
    requires p.content == map[]
    requires Rebuild(parse, p, events).Some? && Rebuild(parse, p, other).Some?
    requires Only(events, i) == Only(other, i)
    ensures At(Rebuild(parse, p, events).value, i) == At(Rebuild(parse, p, other).value, i)
  {
    hide Rebuild, BlockSince, Only;
    Reconstruction(parse, p, events, i);
    Reconstruction(parse, p, other, i);
    OnlyMatters(parse, events, i);
    OnlyMatters(parse, other, i);
  }

  // ---------------------------------------------------------------- stripping and rebuilding

  /** The message without the helper text kept while calls stream. */
  function EraseBlock(b: Block): Block {
    if b.ToolCall? then b.(partialJson := None) else b
  }

  function Erase(p: Partial): Partial {
    p.(content := map i | i in p.content :: EraseBlock(p.content[i]))
  }

  function EraseEvent(e: ClientEvent): ClientEvent {
    var shown := e.(partial := Erase(e.partial));
    if shown.CallEnded? then shown.(call := EraseBlock(shown.call)) else shown
  }

  /** Erasing removes the helper text and nothing else. */
  lemma ErasesOnlyHelper(b: Block, c: Block)
    ensures EraseBlock(b) == EraseBlock(c) <==>
            b == c || (b.ToolCall? && c.ToolCall? && b.id == c.id && b.name == c.name && b.arguments == c.arguments)
  {
  }

  /** Events that look the same when erased are the same but for the helper text. */
  lemma ErasedEventsAgree(e: ClientEvent, f: ClientEvent)
    ensures EraseEvent(e) == EraseEvent(f) <==>
            Erase(e.partial) == Erase(f.partial) &&
            match (e, f)
            case (Started(_), Started(_)) => true
            case (BlockStarted(k, i, _), BlockStarted(l, j, _)) => k == l && i == j
            case (BlockDelta(k, i, d, _), BlockDelta(l, j, c, _)) => k == l && i == j && d == c
            case (BlockEnded(k, i, t, _), BlockEnded(l, j, u, _)) => k == l && i == j && t == u
            case (CallEnded(i, b, _), CallEnded(j, c, _)) => i == j && EraseBlock(b) == EraseBlock(c)
            case (Finished(r, _), Finished(s, _)) => r == s
            case (Broken(r, _), Broken(s, _)) => r == s
            case _ => false
  {
    hide Erase, EraseBlock;
  }

  function EraseAll(events: seq<ClientEvent>): seq<ClientEvent> {
    seq(|events|, k requires 0 <= k < |events| => EraseEvent(events[k]))
  }

  function SignatureIn(p: Partial, i: int): Option<string> {
    match At(p, i)
    case Some(Text(_, signature)) => signature
    case Some(Thinking(_, signature)) => signature
    case _ => None
  }

  /** What the server sends for a provider event: the partial message stays behind. */
  function Strip(e: ClientEvent): ProxyEvent {
    match e
    case Started(_) => Start
    case BlockStarted(TextKind, i, _) => TextStart(i)
    case BlockStarted(ThinkingKind, i, _) => ThinkingStart(i)
    case BlockStarted(CallKind, i, p) =>
      if KindOf(At(p, i)) == Some(CallKind) then ToolCallStart(i, p.content[i].id, p.content[i].name) else Unknown("")
    case BlockDelta(TextKind, i, delta, _) => TextDelta(i, delta)
    case BlockDelta(ThinkingKind, i, delta, _) => ThinkingDelta(i, delta)
    case BlockDelta(CallKind, i, delta, _) => ToolCallDelta(i, delta)
    case BlockEnded(TextKind, i, _, p) => TextEnd(i, SignatureIn(p, i))
    case BlockEnded(ThinkingKind, i, _, p) => ThinkingEnd(i, SignatureIn(p, i))
    case BlockEnded(CallKind, _, _, _) => Unknown("")
    case CallEnded(i, _, _) => ToolCallEnd(i)
    case Finished(reason, p) => Done(reason, p.usage)
    case Broken(reason, p) => Failed(reason, p.errorMessage, p.usage)
  }

  function StripAll(events: seq<ClientEvent>): seq<ProxyEvent> {
    seq(|events|, k requires 0 <= k < |events| => Strip(events[k]))
  }

  /** The stop reason, error text and usage after events. */
  function EnvelopeSince(p: Partial, events: seq<ProxyEvent>): (StopReason, Option<string>, string) {
    if events == [] then (p.stopReason, p.errorMessage, p.usage)
    else
      var before := EnvelopeSince(p, events[..|events| - 1]);
      match events[|events| - 1]
      case Done(reason, usage) => (reason, before.1, usage)
      case Failed(reason, errorMessage, usage) => (reason, errorMessage, usage)
      case _ => before
  }

  function EnvelopeOf(p: Partial): (StopReason, Option<string>, string) {
    (p.stopReason, p.errorMessage, p.usage)
  }

  function Erased(b: Option<Block>): Option<Block> {
    if b.Some? then Some(EraseBlock(b.value)) else None
  }

  /** A message says no more than the stripped events do: each of its blocks started blank and
      is the concatenation of its deltas, with the signature of its end (a call: the id and
      name of its start, and the parse of its JSON text), and its envelope is the one sent. */
  ghost predicate Explained(parse: JsonParser, p: Partial, message: Partial, events: seq<ProxyEvent>) {
    && (forall i :: Erased(At(message, i)) == Erased(BlockSince(parse, events, i)))
    && EnvelopeOf(message) == EnvelopeSince(p, events)
  }

  lemma StepEnvelope(parse: JsonParser, p: Partial, e: ProxyEvent, events: seq<ProxyEvent>, q: Partial)
    requires !Process(parse, q, e).Thrown? && EnvelopeOf(q) == EnvelopeSince(p, events)
    ensures EnvelopeOf(Process(parse, q, e).partial) == EnvelopeSince(p, events + [e])
  {
    hide Process;
    Init(events, e);
    ProcessEnvelope(parse, q, e);
  }

  lemma ProcessEnvelope(parse: JsonParser, q: Partial, e: ProxyEvent)
    requires !Process(parse, q, e).Thrown?
    ensures EnvelopeOf(Process(parse, q, e).partial) ==
            match e
            case Done(reason, usage) => (reason, q.errorMessage, usage)
            case Failed(reason, errorMessage, usage) => (reason, errorMessage, usage)
            case _ => EnvelopeOf(q)
  {
    hide AppendJson;
  }

  lemma {:induction false} EnvelopeTracked(parse: JsonParser, p: Partial, events: seq<ProxyEvent>)
    requires Rebuild(parse, p, events).Some?
    ensures EnvelopeOf(Rebuild(parse, p, events).value) == EnvelopeSince(p, events)
  {
    hide Process, EnvelopeSince, EnvelopeOf;
    if events != [] {
      var init, e := events[..|events| - 1], events[|events| - 1];
      EnvelopeTracked(parse, p, init);
      StepEnvelope(parse, p, e, init, Rebuild(parse, p, init).value);
      assert init + [e] == events;
    } else {
      NothingSent(p);
    }
  }

  lemma NothingSent(p: Partial)
    ensures EnvelopeOf(p) == EnvelopeSince(p, [])
  {
  }

  lemma ErasedAt(p: Partial, i: int)
    ensures At(Erase(p), i) == Erased(At(p, i))
  {
  }

  /** Two messages look the same exactly when they do at every index and in their envelope. */
  lemma SameMessage(p: Partial, q: Partial)
    ensures Erase(p) == Erase(q) <==>
            (forall i :: Erased(At(p, i)) == Erased(At(q, i))) && EnvelopeOf(p) == EnvelopeOf(q)
  {
    if (forall i :: Erased(At(p, i)) == Erased(At(q, i))) && EnvelopeOf(p) == EnvelopeOf(q) {
      forall i ensures i in p.content <==> i in q.content
               ensures i in p.content ==> EraseBlock(p.content[i]) == EraseBlock(q.content[i])
      {
        assert Erased(At(p, i)) == Erased(At(q, i));
      }
      assert Erase(p).content == Erase(q).content;
    }
    if Erase(p) == Erase(q) {
      forall i ensures Erased(At(p, i)) == Erased(At(q, i)) {
        ErasedAt(p, i);
        ErasedAt(q, i);
      }
    }
  }

  /** The rebuilt message is the one the events explain, and no other. */
  lemma RebuiltIffExplained(parse: JsonParser, p: Partial, events: seq<ProxyEvent>, message: Partial)
    requires p.content == map[] && Rebuild(parse, p, events).Some?
    ensures Erase(Rebuild(parse, p, events).value) == Erase(message) <==> Explained(parse, p, message, events)
  {
    hide Erase, BlockSince, EnvelopeSince, Rebuild, EraseBlock, At;
    var q := Rebuild(parse, p, events).value;
    forall i ensures At(q, i) == BlockSince(parse, events, i) {
      Reconstruction(parse, p, events, i);
    }
    EnvelopeTracked(parse, p, events);
    SameMessage(q, message);
  }

  /** Round trip of the final message, for arbitrary provider events: the client ends with the
      provider's message if and only if the stripped events address blocks of their own kind
      and explain that message. */
  lemma FinalMessageIff(parse: JsonParser, p: Partial, events: seq<ClientEvent>, message: Partial)
    requires p.content == map[]
    ensures var sent := StripAll(events);
            (Rebuild(parse, p, sent).Some? && Erase(Rebuild(parse, p, sent).value) == Erase(message))
            <==> Addressed(sent) && Explained(parse, p, message, sent)
  {
    hide Rebuild, Addressed, Explained, Erase;
    RebuildsIffAddressed(parse, p, StripAll(events));
    if Rebuild(parse, p, StripAll(events)).Some? {
      RebuiltIffExplained(parse, p, StripAll(events), message);
    }
  }

  /** A provider's final event gives the client its stop reason and its usage, and an error event
      its error text too. */
  lemma FinalEventArrives(parse: JsonParser, p: Partial, events: seq<ClientEvent>, e: ClientEvent)
    requires Rebuild(parse, p, StripAll(events)).Some? && (e.Finished? || e.Broken?)
    ensures Rebuild(parse, p, StripAll(events + [e])).Some?
    ensures var before := Rebuild(parse, p, StripAll(events)).value;
            var after := Rebuild(parse, p, StripAll(events + [e])).value;
            && after.content == before.content && after.stopReason == e.reason && after.usage == e.partial.usage
            && after.errorMessage == if e.Broken? then e.partial.errorMessage else before.errorMessage
  {
    var sent := StripAll(events + [e]);
    assert sent[..|events|] == StripAll(events) && sent[|events|] == Strip(e);
  }

  /** The events the client pushes, with its helper text removed; None after a throw. */
  function Replay(parse: JsonParser, p: Partial, events: seq<ProxyEvent>): Option<seq<ClientEvent>> {
    if events == [] then Some([])
    else
      match (Replay(parse, p, events[..|events| - 1]), Rebuild(parse, p, events[..|events| - 1]))
      case (Some(pushed), Some(q)) =>
        (match Process(parse, q, events[|events| - 1])
         case Pushed(_, e) => Some(pushed + [EraseEvent(e)])
         case Silent(_) => Some(pushed)
         case Thrown(_) => None)
      case _ => None
  }

  /** A provider event shows no more than the stripped events up to it do: sent are those
      before it. */
  ghost predicate ShowsWhatWasSent(parse: JsonParser, p: Partial, sent: seq<ProxyEvent>, e: ClientEvent) {
    var now := sent + [Strip(e)];
    && !Strip(e).Unknown?
    && (Needs(Strip(e)).Some? ==> KindAt(sent, Needs(Strip(e)).value.0) == Some(Needs(Strip(e)).value.1))
    && Explained(parse, p, e.partial, now)
    && (e.BlockEnded? ==> e.text == TextSince(now, e.index))
    && (e.CallEnded? ==> KindAt(now, e.index) == Some(CallKind) &&
                         Some(EraseBlock(e.call)) == Erased(BlockSince(parse, now, e.index)))
  }

  /** What the client pushes for one stripped event: whether it pushes at all, and when it
      pushes what the provider showed. */
  ghost predicate PushedFor(parse: JsonParser, q: Partial, e: ClientEvent) {
    var r := Process(parse, q, Strip(e));
    && (r.Pushed? <==>
          && !Strip(e).Unknown?
          && (Needs(Strip(e)).Some? ==> KindOf(At(q, Needs(Strip(e)).value.0)) == Some(Needs(Strip(e)).value.1))
          && (e.CallEnded? ==> KindOf(At(q, e.index)) == Some(CallKind)))
    && (r.Pushed? ==>
          (EraseEvent(r.event) == EraseEvent(e) <==>
             && Erase(r.partial) == Erase(e.partial)
             && (e.BlockEnded? ==> Some(e.text) == TextIn(At(r.partial, e.index)))
             && (e.CallEnded? ==> Some(EraseBlock(e.call)) == Erased(At(r.partial, e.index)))))
  }

  lemma AlwaysPushedFor(parse: JsonParser, q: Partial, e: ClientEvent)
    ensures PushedFor(parse, q, e)
  {
    hide PushedFor;
    match e {
      case BlockStarted(_, _, _) => StartPushed(parse, q, e);
      case BlockDelta(_, _, _, _) => DeltaPushed(parse, q, e);
      case BlockEnded(_, _, _, _) => EndPushed(parse, q, e);
      case CallEnded(_, _, _) => CallPushed(parse, q, e);
      case _ => OtherPushed(parse, q, e);
    }
  }

  lemma StartPushed(parse: JsonParser, q: Partial, e: ClientEvent)
    requires e.BlockStarted?
    ensures PushedFor(parse, q, e)
  {
    hide Erase;
  }

  lemma DeltaPushed(parse: JsonParser, q: Partial, e: ClientEvent)
    requires e.BlockDelta?
    ensures PushedFor(parse, q, e)
  {
    hide Erase;
  }

  lemma EndPushed(parse: JsonParser, q: Partial, e: ClientEvent)
    requires e.BlockEnded?
    ensures PushedFor(parse, q, e)
  {
    hide Erase;
  }

  lemma CallPushed(parse: JsonParser, q: Partial, e: ClientEvent)
    requires e.CallEnded?
    ensures PushedFor(parse, q, e)
  {
    hide Erase;
  }

  lemma OtherPushed(parse: JsonParser, q: Partial, e: ClientEvent)
    requires e.Started? || e.Finished? || e.Broken?
    ensures PushedFor(parse, q, e)
  {
    hide Erase;
  }

  function TextIn(b: Option<Block>): Option<string> {
    match b
    case Some(Text(text, _)) => Some(text)
    case Some(Thinking(text, _)) => Some(text)
    case _ => None
  }

  /** One event of the round trip. */
  lemma ShowsIff(parse: JsonParser, p: Partial, sent: seq<ProxyEvent>, q: Partial, e: ClientEvent)
    requires p.content == map[] && Rebuild(parse, p, sent) == Some(q)
    ensures var r := Process(parse, q, Strip(e));
            ShowsWhatWasSent(parse, p, sent, e) <==> r.Pushed? && EraseEvent(r.event) == EraseEvent(e)
  {
    hide Process, Erase, BlockSince, EnvelopeSince, KindAt, Strip, EraseEvent, Explained, TextSince, Needs;
    var r, now := Process(parse, q, Strip(e)), sent + [Strip(e)];
    AlwaysPushedFor(parse, q, e);
    if Needs(Strip(e)).Some? {
      KindsTracked(parse, p, sent, Needs(Strip(e)).value.0);
    }
    if e.CallEnded? {
      KindsTracked(parse, p, sent, e.index);
      CallEndKeepsKind(sent, e);
    }
    if r.Pushed? {
      Init(sent, Strip(e));
      RebuiltIffExplained(parse, p, now, e.partial);
      if e.BlockEnded? || e.CallEnded? {
        Reconstruction(parse, p, now, e.index);
        if e.BlockEnded? {
          EndedText(parse, sent, e);
        }
      }
    }
  }

  lemma CallEndKeepsKind(sent: seq<ProxyEvent>, e: ClientEvent)
    requires e.CallEnded?
    ensures KindAt(sent + [Strip(e)], e.index) == KindAt(sent, e.index)
  {
    StepText(sent, Strip(e), e.index);
  }

  lemma EndedText(parse: JsonParser, sent: seq<ProxyEvent>, e: ClientEvent)
    requires e.BlockEnded? && !Strip(e).Unknown?
    requires Needs(Strip(e)).Some? ==> KindAt(sent, Needs(Strip(e)).value.0) == Some(Needs(Strip(e)).value.1)
    ensures TextIn(BlockSince(parse, sent + [Strip(e)], e.index)) == Some(TextSince(sent + [Strip(e)], e.index))
  {
    hide TextSince, SignatureSince;
    StepText(sent, Strip(e), e.index);
  }

  lemma {:induction false} ReplayAtMost(parse: JsonParser, p: Partial, events: seq<ProxyEvent>)
    ensures Replay(parse, p, events).Some? ==> |Replay(parse, p, events).value| <= |events|
    ensures Replay(parse, p, events).Some? ==> Rebuild(parse, p, events).Some?
  {
    hide Process;
    if events != [] {
      ReplayAtMost(parse, p, events[..|events| - 1]);
    }
  }

  /** Every event of a run shows no more than was sent by then. */
  ghost predicate NothingHeldBack(parse: JsonParser, p: Partial, events: seq<ClientEvent>) {
    forall k :: 0 <= k < |events| ==> ShowsWhatWasSent(parse, p, StripAll(events[..k]), events[k])
  }

  lemma NothingHeldBackNext(parse: JsonParser, p: Partial, init: seq<ClientEvent>, e: ClientEvent)
    ensures NothingHeldBack(parse, p, init + [e]) <==>
            NothingHeldBack(parse, p, init) && ShowsWhatWasSent(parse, p, StripAll(init), e)
  {
    hide ShowsWhatWasSent, Strip;
    var events := init + [e];
    assert events[..|init|] == init && events[|init|] == e;
    assert forall k :: 0 <= k < |init| ==> events[..k] == init[..k] && events[k] == init[k];
    if NothingHeldBack(parse, p, events) {
      forall k | 0 <= k < |init| ensures ShowsWhatWasSent(parse, p, StripAll(init[..k]), init[k]) {
        assert ShowsWhatWasSent(parse, p, StripAll(events[..k]), events[k]);
      }
    }
  }

  /** Round trip of a whole run, for arbitrary provider events: the client pushes the same
      events, partial messages included, if and only if every event shows no more than was
      sent by then. */
  lemma {:induction false} RoundTripIff(parse: JsonParser, p: Partial, events: seq<ClientEvent>)
    requires p.content == map[]
    ensures Replay(parse, p, StripAll(events)) == Some(EraseAll(events)) <==> NothingHeldBack(parse, p, events)
  {
    hide Process, Strip, EraseEvent, ShowsWhatWasSent, Rebuild, NothingHeldBack, Replay;
    if events == [] {
      NothingToReplay(parse, p);
    } else {
      var n := |events| - 1;
      var init, e := events[..n], events[n];
      assert init + [e] == events;
      RoundTripIff(parse, p, init);
      NothingHeldBackNext(parse, p, init, e);
      RoundTripNext(parse, p, init, e);
    }
  }

  lemma NothingToReplay(parse: JsonParser, p: Partial)
    ensures Replay(parse, p, StripAll([])) == Some(EraseAll([])) && NothingHeldBack(parse, p, [])
  {
    assert StripAll([]) == [] && EraseAll([]) == [];
  }

  lemma AppendIsInjective<T>(a: seq<T>, x: T, b: seq<T>, y: T)
    ensures a + [x] == b + [y] <==> a == b && x == y
  {
    if a + [x] == b + [y] {
      assert (a + [x])[..|a|] == a && (b + [y])[..|b|] == b;
      assert (a + [x])[|a|] == x && (b + [y])[|b|] == y;
    }
  }

  lemma RoundTripNext(parse: JsonParser, p: Partial, init: seq<ClientEvent>, e: ClientEvent)
    requires p.content == map[]
    ensures Replay(parse, p, StripAll(init + [e])) == Some(EraseAll(init + [e])) <==>
            Replay(parse, p, StripAll(init)) == Some(EraseAll(init)) && ShowsWhatWasSent(parse, p, StripAll(init), e)
  {
    hide Process, Strip, EraseEvent, ShowsWhatWasSent, Rebuild;
    var sent, pushed := StripAll(init), Replay(parse, p, StripAll(init));
    assert StripAll(init + [e])[..|init|] == sent && StripAll(init + [e])[|init|] == Strip(e);
    ReplayAtMost(parse, p, sent);
    assert EraseAll(init + [e]) == EraseAll(init) + [EraseEvent(e)];
    if pushed.Some? {
      var q := Rebuild(parse, p, sent).value;
      ShowsIff(parse, p, sent, q, e);
      var r := Process(parse, q, Strip(e));
      if r.Pushed? {
        AppendIsInjective(pushed.value, EraseEvent(r.event), EraseAll(init), EraseEvent(e));
      }
    }
  }

  // ---------------------------------------------------------------- providers that hold back

  function OneBlock(p: Partial, b: Block): Partial {
    p.(content := map[0 := b])
  }

  lemma OneBlockAt(p: Partial, b: Block)
    ensures At(OneBlock(p, b), 0) == Some(b)
  {
  }

  /** A provider that starts a block with text already in it, sends no delta for it and ends
      it, as the Anthropic provider does for redacted thinking. */
  function RedactedThinking(p: Partial, thinking: string, signature: string): seq<ClientEvent> {
    var q := OneBlock(p, Thinking(thinking, Some(signature)));
    [BlockStarted(ThinkingKind, 0, q), BlockEnded(ThinkingKind, 0, thinking, q)]
  }

  /** The client shows such a block blank. */
  lemma RedactedThinkingIsLost(parse: JsonParser, p: Partial, thinking: string, signature: string)
    requires p.content == map[] && thinking != ""
    ensures var sent := StripAll(RedactedThinking(p, thinking, signature));
            && Rebuild(parse, p, sent).Some?
            && At(Rebuild(parse, p, sent).value, 0) == Some(Thinking("", Some(signature)))
            && !Explained(parse, p, OneBlock(p, Thinking(thinking, Some(signature))), sent)
  {
    hide Addressed, BlockSince, Rebuild, Explained, StripAll, RedactedThinking, OneBlock, At;
    var sent := StripAll(RedactedThinking(p, thinking, signature));
    RedactedSent(p, thinking, signature);
    OneBlockAt(p, Thinking(thinking, Some(signature)));
    BlankThinking(parse, signature);
    RebuildsIffAddressed(parse, p, sent);
    Reconstruction(parse, p, sent, 0);
    NotExplained(parse, p, OneBlock(p, Thinking(thinking, Some(signature))), sent, 0);
  }

  lemma RedactedSent(p: Partial, thinking: string, signature: string)
    ensures StripAll(RedactedThinking(p, thinking, signature))
            == [] + [ThinkingStart(0)] + [ThinkingEnd(0, Some(signature))]
  {
  }

  lemma BlankThinking(parse: JsonParser, signature: string)
    ensures var sent := [] + [ThinkingStart(0)] + [ThinkingEnd(0, Some(signature))];
            Addressed(sent) && BlockSince(parse, sent, 0) == Some(Thinking("", Some(signature)))
  {
    var start, end := ThinkingStart(0), ThinkingEnd(0, Some(signature));
    hide Addressed, KindAt, TextSince, SignatureSince;
    StepText([], start, 0);
    StepText([] + [start], end, 0);
    NothingAddressed();
    AddressedNext([], start);
    AddressedNext([] + [start], end);
  }

  lemma NotExplained(parse: JsonParser, p: Partial, message: Partial, events: seq<ProxyEvent>, i: int)
    requires Erased(At(message, i)) != Erased(BlockSince(parse, events, i))
    ensures !Explained(parse, p, message, events)
  {
    hide BlockSince, EnvelopeSince, Erased, At;
  }

  /** A provider that replaces the text of a block at its end, as the OpenAI responses
      provider does. */
  function ReplacedText(p: Partial, delta: string, text: string, signature: Option<string>): seq<ClientEvent> {
    var q := OneBlock(p, Text(text, signature));
    [BlockStarted(TextKind, 0, OneBlock(p, Text("", None))),
     BlockDelta(TextKind, 0, delta, OneBlock(p, Text(delta, None))),
     BlockEnded(TextKind, 0, text, q)]
  }

  /** The client keeps the concatenation of the deltas: it agrees exactly when the replacement
      is that concatenation. */
  lemma ReplacedTextIff(parse: JsonParser, p: Partial, delta: string, text: string, signature: Option<string>)
    requires p.content == map[]
    ensures var sent := StripAll(ReplacedText(p, delta, text, signature));
            && Rebuild(parse, p, sent).Some?
            && At(Rebuild(parse, p, sent).value, 0) == Some(Text(delta, signature))
            && (Explained(parse, p, OneBlock(p, Text(text, signature)), sent) <==> text == delta)
  {
    hide Addressed, BlockSince, Rebuild, Explained, StripAll, ReplacedText, OneBlock, At;
    var sent := StripAll(ReplacedText(p, delta, text, signature));
    ReplacedSent(p, delta, text, signature);
    OneBlockAt(p, Text(text, signature));
    OneDelta(parse, delta, signature);
    RebuildsIffAddressed(parse, p, sent);
    Reconstruction(parse, p, sent, 0);
    if text == delta {
      DeltasExplain(parse, p, delta, signature);
    } else {
      NotExplained(parse, p, OneBlock(p, Text(text, signature)), sent, 0);
    }
  }

  lemma DeltasExplain(parse: JsonParser, p: Partial, delta: string, signature: Option<string>)
    ensures Explained(parse, p, OneBlock(p, Text(delta, signature)),
                      [] + [TextStart(0)] + [TextDelta(0, delta)] + [TextEnd(0, signature)])
  {
    hide BlockSince, EnvelopeSince;
    OneDelta(parse, delta, signature);
    EnvelopeKept(p, delta, signature);
    forall i | i != 0
      ensures BlockSince(parse, [] + [TextStart(0)] + [TextDelta(0, delta)] + [TextEnd(0, signature)], i) == None
    {
      OtherIndex(parse, delta, signature, i);
    }
  }

  lemma OtherIndex(parse: JsonParser, delta: string, signature: Option<string>, i: int)
    requires i != 0
    ensures BlockSince(parse, [] + [TextStart(0)] + [TextDelta(0, delta)] + [TextEnd(0, signature)], i) == None
  {
    hide TextSince, KindAt, SignatureSince;
    StepText([], TextStart(0), i);
    StepText([] + [TextStart(0)], TextDelta(0, delta), i);
    StepText([] + [TextStart(0)] + [TextDelta(0, delta)], TextEnd(0, signature), i);
    NothingSince(parse, i);
  }

  lemma EnvelopeKept(p: Partial, delta: string, signature: Option<string>)
    ensures EnvelopeSince(p, [] + [TextStart(0)] + [TextDelta(0, delta)] + [TextEnd(0, signature)]) == EnvelopeOf(p)
  {
    var start, more := [] + [TextStart(0)], [] + [TextStart(0)] + [TextDelta(0, delta)];
    Init(more, TextEnd(0, signature));
    Init(start, TextDelta(0, delta));
    Init([], TextStart(0));
    assert EnvelopeSince(p, start) == EnvelopeOf(p);
    assert EnvelopeSince(p, more) == EnvelopeOf(p);
  }

  lemma ReplacedSent(p: Partial, delta: string, text: string, signature: Option<string>)
    ensures StripAll(ReplacedText(p, delta, text, signature))
            == [] + [TextStart(0)] + [TextDelta(0, delta)] + [TextEnd(0, signature)]
  {
  }

  lemma OneDelta(parse: JsonParser, delta: string, signature: Option<string>)
    ensures var sent := [] + [TextStart(0)] + [TextDelta(0, delta)] + [TextEnd(0, signature)];
            Addressed(sent) && BlockSince(parse, sent, 0) == Some(Text(delta, signature))
  {
    var start, more, end := TextStart(0), TextDelta(0, delta), TextEnd(0, signature);
    hide Addressed, KindAt, TextSince, SignatureSince;
    StepText([], start, 0);
    StepText([] + [start], more, 0);
    StepText([] + [start] + [more], end, 0);
    assert "" + delta == delta && delta + "" == delta;
    NothingAddressed();
    AddressedNext([], start);
    AddressedNext([] + [start], more);
    AddressedNext([] + [start] + [more], end);
  }

  /** A provider that starts a call with its arguments filled in, as the Google provider does,
      shows more at that event than was sent by then. */
  lemma FilledArgumentsHoldBack(parse: JsonParser, p: Partial, id: string, name: string, args: string)
    requires args != EMPTY_OBJECT
    ensures !NothingHeldBack(parse, p, [BlockStarted(CallKind, 0, OneBlock(p, ToolCall(id, name, args, None)))])
  {
    var e := BlockStarted(CallKind, 0, OneBlock(p, ToolCall(id, name, args, None)));
    var start := ToolCallStart(0, id, name);
    assert Strip(e) == start && [e][..0] == [] && StripAll([]) == [];
    hide KindAt, TextSince, SignatureSince, JsonText, DeltaSince, EndedAt, CallSince, Explained;
    StepText([], start, 0);
    StepJson([], start, 0);
    NotExplained(parse, p, e.partial, [] + [start], 0);
  }

  /** In the end such a call arrives exactly when parsing its one delta gives the arguments. */
  lemma FilledArgumentsArriveIff(parse: JsonParser, id: string, name: string, args: string, delta: string)
    ensures var sent := [] + [ToolCallStart(0, id, name)] + [ToolCallDelta(0, delta)] + [ToolCallEnd(0)];
            BlockSince(parse, sent, 0) == Some(ToolCall(id, name, args, None)) <==>
            parse(delta).GetOr("{}") == args
  {
    var start, more, end := ToolCallStart(0, id, name), ToolCallDelta(0, delta), ToolCallEnd(0);
    hide TextSince, KindAt, SignatureSince, JsonText, DeltaSince, EndedAt, CallSince;
    StepText([], start, 0);
    StepText([] + [start], more, 0);
    StepText([] + [start] + [more], end, 0);
    StepJson([], start, 0);
    StepJson([] + [start], more, 0);
    StepJson([] + [start] + [more], end, 0);
    assert "" + delta == delta;
  }
}
