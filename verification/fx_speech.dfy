/** What the frames of the Responses translator carry: the upstream's text, reasoning and calls, in order. */
module FxSpeech {
  import opened Wrappers
  import opened FxFrames
  import opened FxStream

  // ---- What the upstream says, read off its events -----------------------------------------------

  datatype Call = Call(id: string, name: string, arguments: string)

  /** The call an event begins or adds arguments to, and the key it goes by from then on. */
  function Spelled(before: Events, e: Event): Option<(string, Call)>
    decreases before, 2
  {
    match e
    case ItemAdded(Some(item)) =>
      if item.kind != FunctionCall then None
      else
        var callId := Or(item.callId, Or(item.id, ""));
        Some((NonEmptyOr(Or(item.id, ""), callId), Call(callId, Or(item.name, "unknown"), "")))
    case ArgumentsPart(itemId, delta) =>
      var key := Or(itemId, "");
      var known := Under(before, key);
      if known.Some? then Some((key, known.value.(arguments := known.value.arguments + Or(delta, ""))))
      else Some((NonEmptyOr(key, "call"), Call(NonEmptyOr(key, "call"), "unknown", Or(delta, ""))))
    case _ => None
  }

  /** The key an event is done with. */
  function DoneKey(e: Event): Option<string> {
    if e.ItemDone? then Some(Or(OrElse(e.itemId, if e.done.Some? then e.done.value.id else None), "")) else None
  }

  /** The call under way under a key: begun last, with all arguments added since, and not done with. */
  function Under(events: Events, key: string): Option<Call>
    decreases events, 1
  {
    match events
    case NoEvents => None
    case Read(before, e) =>
      var spelled := Spelled(before, e);
      if spelled.Some? && spelled.value.0 == key then Some(spelled.value.1)
      else if DoneKey(e) == Some(key) then None
      else Under(before, key)
  }

  function Without(keys: seq<string>, key: string): seq<string> {
    if keys == [] then []
    else if keys[0] == key then keys[1..]
    else [keys[0]] + Without(keys[1..], key)
  }

  /** The keys of the calls under way, in the order they came up. */
  function Waiting(events: Events): seq<string> {
    match events
    case NoEvents => []
    case Read(before, e) =>
      var spelled := Spelled(before, e);
      if spelled.Some? then
        if Under(before, spelled.value.0).Some? then Waiting(before) else Waiting(before) + [spelled.value.0]
      else if DoneKey(e).Some? then Without(Waiting(before), DoneKey(e).value)
      else Waiting(before)
  }

  function Asked(call: Option<Call>): seq<Speech> {
    if call.Some? then [Ask(call.value.id, call.value.name, call.value.arguments)] else []
  }

  function AllAsked(events: Events, keys: seq<string>): seq<Speech> {
    if keys == [] then [] else Asked(Under(events, keys[0])) + AllAsked(events, keys[1..])
  }

  predicate Ends(e: Event) { e.Terminator? || e.Completed? || e.Incomplete? || e.Failed? }

  predicate SomeEnd(events: Events) { events.Read? && (SomeEnd(events.before) || Ends(events.event)) }

  /** A done call carries the arguments of its done event, if it has any, and those added up otherwise. */
  function Final(call: Option<Call>, done: Option<DoneItem>): Option<Call> {
    if call.Some? && done.Some? && Truthy(done.value.arguments) then
      Some(call.value.(arguments := done.value.arguments.value))
    else call
  }

  /** What one event says: a delta, the call it is done with, or at the end every call still under way. */
  function Says(before: Events, e: Event): seq<Speech> {
    match e
    case TextPart(_, delta) => if Truthy(delta) then [Say(delta.value)] else []
    case ReasoningPart(_, delta) => if Truthy(delta) then [Think(delta.value)] else []
    case ItemDone(_, done) => Asked(Final(Under(before, DoneKey(e).value), done))
    case _ => if Ends(e) then AllAsked(before, Waiting(before)) else []
  }

  /** What the events up to the first end say. */
  function Heard(events: Events): seq<Speech> {
    match events
    case NoEvents => []
    case Read(before, e) => Heard(before) + if SomeEnd(before) then [] else Says(before, e)
  }

  /** A stream without an end is taken to end after its last event. */
  function Told(events: Events): seq<Speech> {
    Heard(events) + if SomeEnd(events) then [] else AllAsked(events, Waiting(events))
  }

  // ---- The translator's table is that history -----------------------------------------------------

  function CallOf(tool: Tool): Call { Call(tool.callId, tool.name, tool.arguments) }

  predicate HasKey(tools: Tools, key: string) { tools.Entry? && (tools.key == key || HasKey(tools.rest, key)) }

  function Keys(tools: Tools): seq<string> { if tools.NoTools? then [] else [tools.key] + Keys(tools.rest) }

  predicate Distinct(tools: Tools) { tools.Entry? ==> !HasKey(tools.rest, tools.key) && Distinct(tools.rest) }

  /** Every entry is the call under its key. */
  predicate Agrees(tools: Tools, under: string -> Option<Call>) {
    tools.Entry? ==> under(tools.key) == Some(CallOf(tools.tool)) && Agrees(tools.rest, under)
  }

  ghost predicate Holds(tools: Tools, under: string -> Option<Call>) {
    Distinct(tools) && Agrees(tools, under) && forall key :: HasKey(tools, key) <==> under(key).Some?
  }

  lemma {:induction false} GetFinds(tools: Tools, key: string, under: string -> Option<Call>)
    requires Agrees(tools, under)
    ensures Get(tools, key).Some? <==> HasKey(tools, key)
    ensures Get(tools, key).Some? ==> under(key) == Some(CallOf(Get(tools, key).value))
  {
    if tools.Entry? && tools.key != key {
      GetFinds(tools.rest, key, under);
    }
  }

  lemma {:induction false} AgreesElsewhere(tools: Tools, key: string, under: string -> Option<Call>,
      now: string -> Option<Call>)
    requires Agrees(tools, under) && !HasKey(tools, key) && forall k :: k != key ==> now(k) == under(k)
    ensures Agrees(tools, now)
  {
    if tools.Entry? {
      AgreesElsewhere(tools.rest, key, under, now);
    }
  }

  lemma {:induction false} PutKeys(tools: Tools, key: string, tool: Tool)
    ensures forall k :: HasKey(Put(tools, key, tool), k) <==> k == key || HasKey(tools, k)
    ensures Keys(Put(tools, key, tool)) == if HasKey(tools, key) then Keys(tools) else Keys(tools) + [key]
    ensures Distinct(tools) ==> Distinct(Put(tools, key, tool))
  {
    if tools.Entry? && tools.key != key {
      PutKeys(tools.rest, key, tool);
    }
  }

  lemma {:induction false} PutAgrees(tools: Tools, key: string, tool: Tool, under: string -> Option<Call>,
      now: string -> Option<Call>)
    requires Distinct(tools) && Agrees(tools, under)
    requires now(key) == Some(CallOf(tool)) && forall k :: k != key ==> now(k) == under(k)
    ensures Agrees(Put(tools, key, tool), now)
  {
    if tools.Entry? {
      if tools.key == key {
        AgreesElsewhere(tools.rest, key, under, now);
      } else {
        PutAgrees(tools.rest, key, tool, under, now);
      }
    }
  }

  lemma {:induction false} DropKeys(tools: Tools, key: string)
    requires Distinct(tools)
    ensures forall k :: HasKey(Drop(tools, key), k) <==> k != key && HasKey(tools, k)
    ensures Keys(Drop(tools, key)) == Without(Keys(tools), key) && Distinct(Drop(tools, key))
  {
    if tools.Entry? {
      assert Keys(tools)[1..] == Keys(tools.rest);
      if tools.key != key {
        DropKeys(tools.rest, key);
      }
    }
  }

  lemma {:induction false} DropAgrees(tools: Tools, key: string, under: string -> Option<Call>,
      now: string -> Option<Call>)
    requires Distinct(tools) && Agrees(tools, under) && forall k :: k != key ==> now(k) == under(k)
    ensures Agrees(Drop(tools, key), now)
  {
    if tools.Entry? {
      if tools.key == key {
        AgreesElsewhere(tools.rest, key, under, now);
      } else {
        DropAgrees(tools.rest, key, under, now);
      }
    }
  }

  lemma {:induction false} NotKept(tools: Tools, key: string)
    requires !HasKey(tools, key)
    ensures Drop(tools, key) == tools && Without(Keys(tools), key) == Keys(tools)
  {
    if tools.Entry? {
      NotKept(tools.rest, key);
      assert Keys(tools)[1..] == Keys(tools.rest);
    }
  }

  function History(events: Events): string -> Option<Call> { key => Under(events, key) }

  /** The table holds the calls under way, in the order they came up. */
  ghost predicate Tracks(tools: Tools, events: Events) {
    Holds(tools, History(events)) && Keys(tools) == Waiting(events)
  }

  lemma {:induction false} PutTracks(tools: Tools, before: Events, e: Event, key: string, tool: Tool)
    requires Tracks(tools, before) && Spelled(before, e) == Some((key, CallOf(tool))) && DoneKey(e).None?
    ensures Tracks(Put(tools, key, tool), Read(before, e))
  {
    hide Spelled;
    var was, now := History(before), History(Read(before, e));
    PutKeys(tools, key, tool);
    PutAgrees(tools, key, tool, was, now);
    assert HasKey(tools, key) <==> was(key).Some?;
  }

  lemma {:induction false} DropTracks(tools: Tools, before: Events, e: Event)
    requires Tracks(tools, before) && e.ItemDone?
    ensures Tracks(Drop(tools, DoneKey(e).value), Read(before, e))
  {
    var key := DoneKey(e).value;
    assert Spelled(before, e).None?;
    DropKeys(tools, key);
    DropAgrees(tools, key, History(before), History(Read(before, e)));
  }

  lemma {:induction false} SameTracks(tools: Tools, before: Events, e: Event)
    requires Tracks(tools, before) && Spelled(before, e).None? && DoneKey(e).None?
    ensures Tracks(tools, Read(before, e))
  {
    hide Spelled;
    var was, now := History(before), History(Read(before, e));
    assert forall k :: now(k) == was(k);
    SameAgrees(tools, was, now);
  }

  lemma {:induction false} SameAgrees(tools: Tools, under: string -> Option<Call>, now: string -> Option<Call>)
    requires Agrees(tools, under) && forall k :: now(k) == under(k)
    ensures Agrees(tools, now)
  {
    if tools.Entry? {
      SameAgrees(tools.rest, under, now);
    }
  }

  // ---- What the frames say -------------------------------------------------------------------------

  /** Opening and closing blocks and the metadata say nothing. */
  lemma {:induction false} BracketsAreSilent(s: State, id: string)
    ensures Spoken(StartText(s, id).out) == Spoken(EndText(s).out) == Spoken(s.out)
    ensures Spoken(StartReasoning(s, id).out) == Spoken(EndReasoning(s).out) == Spoken(s.out)
    ensures Spoken(EmitMetadata(s).out) == Spoken(s.out)
  {
    hide Spoken;
    SilentFrame(s.out, TextStart(id));
    SilentFrame(s.out, TextEnd(Or(s.textId, "")));
    SilentFrame(s.out, ReasoningStart(id));
    SilentFrame(s.out, ReasoningEnd(Or(s.reasoningId, "")));
    SilentFrame(s.out, ResponseMetadata(s.modelId));
  }

  lemma {:induction false} CallAsks(s: State, tool: Tool)
    ensures Spoken(CallTool(s, tool).out) == Spoken(s.out) + Asked(Some(CallOf(tool)))
  {
    hide Spoken;
    var started := ToolInputStart(tool.callId, tool.name);
    var t := if tool.started then s else Emit(s, started);
    SilentFrame(s.out, started);
    SilentFrame(t.out, ToolInputEnd(tool.callId));
    SpokenCall(Sent(t.out, ToolInputEnd(tool.callId)), tool);
  }

  lemma {:induction false} SpokenCall(out: Frames, tool: Tool)
    ensures Spoken(Sent(out, ToolCall(tool.callId, tool.name, tool.arguments))) ==
      Spoken(out) + Asked(Some(CallOf(tool)))
  {
  }

  /** Closing the table asks for every call in it, in order. */
  lemma {:induction false} ClosingAsks(s: State, events: Events)
    requires Agrees(s.tools, History(events))
    ensures Spoken(CloseOpenTools(s).out) == Spoken(s.out) + AllAsked(events, Keys(s.tools))
    decreases s.tools
  {
    hide CallTool, Spoken, Under;
    if s.tools.Entry? {
      var t := CallTool(s, s.tools.tool).(tools := s.tools.rest);
      CallAsks(s, s.tools.tool);
      ClosingAsks(t, events);
      assert Keys(s.tools)[1..] == Keys(s.tools.rest);
      assert History(events)(s.tools.key) == Under(events, s.tools.key);
    }
  }

  lemma {:induction false} FinishAsks(s: State, events: Events, unified: string, raw: string)
    requires !s.finished && Agrees(s.tools, History(events))
    ensures FinishWith(s, unified, raw).finished
    ensures Spoken(FinishWith(s, unified, raw).out) == Spoken(s.out) + AllAsked(events, Keys(s.tools))
  {
    hide CloseOpenTools, Spoken, Agrees, AllAsked;
    var a := EmitMetadata(s.(finished := true));
    var b := EndReasoning(a);
    var c := EndText(b);
    BracketsAreSilent(s.(finished := true), "");
    BracketsAreSilent(a, "");
    BracketsAreSilent(b, "");
    assert c.tools == s.tools;
    ClosingAsks(c, events);
    ClosingKeepsFinished(c);
    var t := CloseOpenTools(c);
    var finish := Finish(FinishReason(t.sawToolCall, unified), raw);
    SilentFrame(t.out, finish);
    SilentFrame(Sent(t.out, finish), Done);
  }

  lemma {:induction false} ClosingKeepsFinished(s: State)
    ensures CloseOpenTools(s).finished == s.finished
    decreases s.tools
  {
    if s.tools.Entry? {
      ClosingKeepsFinished(CallTool(s, s.tools.tool).(tools := s.tools.rest));
    }
  }

  /** After the events so far the table is their history and the frames say what they said. */
  ghost predicate Faithful(s: State, events: Events) {
    && Spoken(s.out) == Heard(events)
    && (s.finished <==> SomeEnd(events))
    && (!s.finished ==> Tracks(s.tools, events))
  }

  lemma {:induction false} AddedIsFaithful(s: State, before: Events, item: AddedItem)
    requires Faithful(s, before) && !s.finished
    ensures Faithful(HandleAdded(s, item), Read(before, ItemAdded(Some(item))))
  {
    hide Tracks, Heard, Spoken, StartText, StartReasoning;
    var e := ItemAdded(Some(item));
    HeardMore(before, e);
    var callId, name := Or(item.callId, Or(item.id, "")), Or(item.name, "unknown");
    SilentFrame(s.out, ToolInputStart(callId, name));
    match item.kind
    case Message =>
      QuietStart(s, NonEmptyOr(Or(item.id, ""), "txt"));
      SameTracks(s.tools, before, e);
    case Reasoning =>
      QuietStart(s, NonEmptyOr(Or(item.id, ""), "rs"));
      SameTracks(s.tools, before, e);
    case FunctionCall =>
      PutTracks(s.tools, before, e, NonEmptyOr(Or(item.id, ""), callId), Tool(callId, name, "", true));
    case OtherKind => SameTracks(s.tools, before, e);
  }

  lemma {:induction false} QuietStart(s: State, id: string)
    ensures Spoken(StartText(s, id).out) == Spoken(StartReasoning(s, id).out) == Spoken(s.out)
    ensures StartText(s, id).finished == StartReasoning(s, id).finished == s.finished
    ensures StartText(s, id).tools == StartReasoning(s, id).tools == s.tools
  {
    BracketsAreSilent(s, id);
  }

  lemma {:induction false} HeardMore(before: Events, e: Event)
    requires !SomeEnd(before)
    ensures Heard(Read(before, e)) == Heard(before) + Says(before, e) && (SomeEnd(Read(before, e)) <==> Ends(e))
  {
  }

  lemma {:induction false} DeltaIsFaithful(s: State, before: Events, e: Event)
    requires Faithful(s, before) && !s.finished && (e.TextPart? || e.ReasoningPart?)
    ensures Faithful(Handle(s, e), Read(before, e))
  {
    hide Tracks, Heard, StartText, StartReasoning;
    HeardMore(before, e);
    SameTracks(s.tools, before, e);
    QuietStart(s, Or(OrElse(e.itemId, s.textId), "txt"));
    QuietStart(s, Or(OrElse(e.itemId, s.reasoningId), "rs"));
  }

  lemma {:induction false} SpelledArguments(before: Events, e: Event, known: Option<Tool>)
    requires e.ArgumentsPart?
    requires Under(before, Or(e.itemId, "")) == if known.Some? then Some(CallOf(known.value)) else None
    ensures var itemId, delta := Or(e.itemId, ""), Or(e.delta, "");
      Spelled(before, e) ==
        if known.Some? then Some((itemId, CallOf(known.value.(arguments := known.value.arguments + delta))))
        else Some((NonEmptyOr(itemId, "call"), Call(NonEmptyOr(itemId, "call"), "unknown", delta)))
  {
  }

  lemma {:induction false} ArgumentsAreFaithful(s: State, before: Events, e: Event)
    requires Faithful(s, before) && !s.finished && e.ArgumentsPart?
    ensures Faithful(Handle(s, e), Read(before, e))
  {
    hide Tracks, Heard, Put, Spoken, Under;
    var itemId, delta := Or(e.itemId, ""), Or(e.delta, "");
    HeardMore(before, e);
    KnownCall(s.tools, before, itemId);
    var known := Get(s.tools, itemId);
    var key := if known.Some? then itemId else NonEmptyOr(itemId, "call");
    var tool := if known.Some? then known.value else Tool(NonEmptyOr(itemId, "call"), "unknown", "", false);
    var t := if tool.started then s else Emit(s, ToolInputStart(tool.callId, tool.name));
    SilentFrame(s.out, ToolInputStart(tool.callId, tool.name));
    SilentFrame(t.out, ToolInputDelta(tool.callId, delta));
    var more := tool.(started := true, arguments := tool.arguments + delta);
    SpelledArguments(before, e, known);
    assert "" + delta == delta;
    PutTracks(s.tools, before, e, key, more);
  }

  lemma {:induction false} KnownCall(tools: Tools, before: Events, key: string)
    requires Tracks(tools, before)
    ensures Get(tools, key).Some? <==> Under(before, key).Some?
    ensures Get(tools, key).Some? ==> Under(before, key) == Some(CallOf(Get(tools, key).value))
    ensures Get(tools, key).None? ==> Drop(tools, key) == tools
  {
    hide Under;
    GetFinds(tools, key, History(before));
    assert History(before)(key) == Under(before, key);
    if Get(tools, key).None? {
      NotKept(tools, key);
    }
  }

  lemma {:induction false} DoneIsFaithful(s: State, before: Events, e: Event)
    requires Faithful(s, before) && !s.finished && e.ItemDone?
    ensures Faithful(Handle(s, e), Read(before, e))
  {
    hide Tracks, Heard, Drop, Get, Spoken, Under, CallTool, EndText, EndReasoning;
    HeardMore(before, e);
    var key := DoneKey(e).value;
    KnownCall(s.tools, before, key);
    DropTracks(s.tools, before, e);
    var known := Get(s.tools, key);
    QuietEnd(s);
    if known.Some? {
      var tool :=
        if e.done.Some? && Truthy(e.done.value.arguments) then known.value.(arguments := e.done.value.arguments.value)
        else known.value;
      CallAsks(s, tool);
      CallKeepsGoing(s, tool);
      assert Some(CallOf(tool)) == Final(Under(before, key), e.done);
    }
  }

  lemma {:induction false} CallKeepsGoing(s: State, tool: Tool)
    ensures CallTool(s, tool).finished == s.finished
  {
  }

  lemma {:induction false} QuietEnd(s: State)
    ensures Spoken(EndText(s).out) == Spoken(EndReasoning(s).out) == Spoken(s.out)
    ensures EndText(s).finished == EndReasoning(s).finished == s.finished
    ensures EndText(s).tools == EndReasoning(s).tools == s.tools
  {
    BracketsAreSilent(s, "");
  }

  lemma {:induction false} EndIsFaithful(s: State, before: Events, e: Event, early: State, unified: string, raw: string)
    requires Faithful(s, before) && !s.finished && Ends(e)
    requires early.tools == s.tools && !early.finished && Spoken(early.out) == Spoken(s.out)
    ensures Faithful(FinishWith(early, unified, raw), Read(before, e))
  {
    hide FinishWith, Heard, Spoken, Under, AllAsked;
    HeardMore(before, e);
    FinishAsks(early, before, unified, raw);
  }

  lemma {:induction false} EventIsFaithful(s: State, before: Events, e: Event)
    requires Faithful(s, before) && !s.finished
    ensures Faithful(Handle(s, e), Read(before, e))
  {
    hide Faithful, FinishWith, Spoken;
    match e
    case Terminator => EndIsFaithful(s, before, e, s, "stop", "stop");
    case Ignored => StillFaithful(s, before, e, s);
    case Created(model) =>
      BracketsAreSilent(RememberModel(s, model), "");
      StillFaithful(s, before, e, Handle(s, e));
    case ItemAdded(added) =>
      if added.Some? {
        AddedIsFaithful(s, before, added.value);
      } else {
        StillFaithful(s, before, e, s);
      }
    case TextPart(_, _) => DeltaIsFaithful(s, before, e);
    case ReasoningPart(_, _) => DeltaIsFaithful(s, before, e);
    case ArgumentsPart(_, _) => ArgumentsAreFaithful(s, before, e);
    case ItemDone(_, _) => DoneIsFaithful(s, before, e);
    case Completed(model) => EndIsFaithful(s, before, e, RememberModel(s, model), "stop", "completed");
    case Incomplete(model, reason) =>
      var unified := if reason == Some("max_output_tokens") then "length" else "other";
      EndIsFaithful(s, before, e, RememberModel(s, model), unified, Or(reason, "incomplete"));
    case Failed(model, message, code, kind) =>
      var error := ErrorFrame(Or(OrElse(code, kind), "provider_error"), Or(message, "upstream failed"));
      SilentFrame(s.out, error);
      EndIsFaithful(s, before, e, Emit(RememberModel(s, model), error), "error", "failed");
  }

  /** An event that says nothing and touches no call. */
  lemma {:induction false} StillFaithful(s: State, before: Events, e: Event, t: State)
    requires Faithful(s, before) && !s.finished
    requires e.Ignored? || e.Created? || e == ItemAdded(None)
    requires t.tools == s.tools && !t.finished && Spoken(t.out) == Spoken(s.out)
    ensures Faithful(t, Read(before, e))
  {
    hide Tracks, Heard, Spoken;
    HeardMore(before, e);
    SameTracks(s.tools, before, e);
  }

  lemma {:induction false} FaithfulSoFar(events: Events)
    ensures Faithful(Consume(events), events)
  {
    hide Handle, Faithful;
    if events.Read? {
      var s := Consume(events.before);
      FaithfulSoFar(events.before);
      if s.finished {
        NothingAfterTheEnd(s, events.before, events.event);
      } else {
        EventIsFaithful(s, events.before, events.event);
      }
    } else {
      NothingYet();
    }
  }

  lemma {:induction false} NothingAfterTheEnd(s: State, before: Events, e: Event)
    requires Faithful(s, before) && s.finished
    ensures Faithful(s, Read(before, e))
  {
  }

  lemma {:induction false} NothingYet()
    ensures Faithful(Initial, NoEvents)
  {
    assert Spoken(Nothing) == [];
    assert Holds(NoTools, History(NoEvents));
  }

  /**
   * The frames carry exactly what the upstream said up to its end, in order: every piece of text and reasoning, and
   * every call with its arguments added up or as its done event gave them; a call that is never done is asked for at
   * the end, in the order it came up.
   */
  lemma {:induction false} EverythingIsSaid(events: Events)
    ensures Spoken(Translate(events).out) == Told(events)
  {
    hide Consume, FinishWith, Spoken, Heard, AllAsked;
    var s := Consume(events);
    FaithfulSoFar(events);
    if !s.finished {
      FinishAsks(s, events, "other", "adapter_eof");
    } else {
      FinishedStays(s, "other", "adapter_eof");
    }
  }

  lemma {:induction false} FinishedStays(s: State, unified: string, raw: string)
    requires s.finished
    ensures FinishWith(s, unified, raw) == s
  {
  }
}
