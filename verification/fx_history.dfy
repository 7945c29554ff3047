/**
 * The whole frame stream of the Responses translator, read off the event history: no variables, no table, each frame
 * decided by looking back at the events.
 */
module FxHistory {
  import opened Wrappers
  import opened FxFrames
  import opened FxStream
  import opened FxGrammar
  import opened FxSpeech

  // ---- Looking back --------------------------------------------------------------------------------

  /** The model was named, and announced with that event. */
  predicate Announced(events: Events) {
    events.Read? && (Announced(events.before) || (events.event.Created? && Truthy(events.event.model)))
  }

  /** The item an event is done with, when it is no call under way. */
  predicate DoneWith(before: Events, e: Event, kind: ItemKind) {
    e.ItemDone? && Under(before, DoneKey(e).value).None? && e.done.Some? && e.done.value.kind == kind
  }

  /** The id of the text block under way; an empty id counts as none. */
  function OpenText(events: Events): Option<string> {
    match events
    case NoEvents => None
    case Read(before, e) =>
      var was := OpenText(before);
      if DoneWith(before, e, Message) && Truthy(was) then None
      else if Truthy(was) then was
      else if e.ItemAdded? && e.added.Some? && e.added.value.kind == Message then
        Some(NonEmptyOr(Or(e.added.value.id, ""), "txt"))
      else if e.TextPart? && Truthy(e.delta) then Some(TextItem(was, e.itemId))
      else was
  }

  function TextItem(open: Option<string>, itemId: Option<string>): string {
    if itemId.Some? then itemId.value else if open.Some? then open.value else "txt"
  }

  function OpenReasoning(events: Events): Option<string> {
    match events
    case NoEvents => None
    case Read(before, e) =>
      var was := OpenReasoning(before);
      if DoneWith(before, e, Reasoning) && Truthy(was) then None
      else if Truthy(was) then was
      else if e.ItemAdded? && e.added.Some? && e.added.value.kind == Reasoning then
        Some(NonEmptyOr(Or(e.added.value.id, ""), "rs"))
      else if e.ReasoningPart? && Truthy(e.delta) then Some(ReasoningItem(was, e.itemId))
      else was
  }

  function ReasoningItem(open: Option<string>, itemId: Option<string>): string {
    if itemId.Some? then itemId.value else if open.Some? then open.value else "rs"
  }

  /** Some call was done with. */
  predicate Called(events: Events) {
    events.Read? &&
    (Called(events.before) || (events.event.ItemDone? && Under(events.before, DoneKey(events.event).value).Some?))
  }

  function CallFrames(call: Option<Call>): seq<Frame> {
    if call.None? then []
    else [ToolInputEnd(call.value.id), ToolCall(call.value.id, call.value.name, call.value.arguments)]
  }

  function AllCalls(events: Events, keys: seq<string>): seq<Frame> {
    if keys == [] then [] else CallFrames(Under(events, keys[0])) + AllCalls(events, keys[1..])
  }

  // ---- The frames ----------------------------------------------------------------------------------

  /** A stream ends: metadata if it is still owed, the open blocks, the calls under way, the finish and the end mark. */
  function Trailer(events: Events, model: Option<string>, unified: string, raw: string): seq<Frame> {
    (if Announced(events) then [] else [ResponseMetadata(if Truthy(model) then model.value else "unknown")]) +
    (if Truthy(OpenReasoning(events)) then [ReasoningEnd(OpenReasoning(events).value)] else []) +
    (if Truthy(OpenText(events)) then [TextEnd(OpenText(events).value)] else []) +
    AllCalls(events, Waiting(events)) +
    [Finish(if unified == "stop" && (Called(events) || Waiting(events) != []) then "tool-calls" else unified, raw),
     Done]
  }

  function FramesFor(before: Events, e: Event): seq<Frame> {
    match e
    case Terminator => Trailer(before, None, "stop", "stop")
    case Ignored => []
    case Created(model) => if Truthy(model) && !Announced(before) then [ResponseMetadata(model.value)] else []
    case ItemAdded(None) => []
    case ItemAdded(Some(item)) =>
      (match item.kind
        case Message => if Truthy(OpenText(before)) then [] else [TextStart(NonEmptyOr(Or(item.id, ""), "txt"))]
        case Reasoning =>
          if Truthy(OpenReasoning(before)) then [] else [ReasoningStart(NonEmptyOr(Or(item.id, ""), "rs"))]
        case FunctionCall => [ToolInputStart(Or(item.callId, Or(item.id, "")), Or(item.name, "unknown"))]
        case OtherKind => [])
    case TextPart(itemId, delta) =>
      var id := TextItem(OpenText(before), itemId);
      if !Truthy(delta) then []
      else (if Truthy(OpenText(before)) then [] else [TextStart(id)]) + [TextDelta(id, delta.value)]
    case ReasoningPart(itemId, delta) =>
      var id := ReasoningItem(OpenReasoning(before), itemId);
      if !Truthy(delta) then []
      else (if Truthy(OpenReasoning(before)) then [] else [ReasoningStart(id)]) + [ReasoningDelta(id, delta.value)]
    case ArgumentsPart(itemId, delta) =>
      var known := Under(before, Or(itemId, ""));
      var id := if known.Some? then known.value.id else NonEmptyOr(Or(itemId, ""), "call");
      (if known.Some? then [] else [ToolInputStart(id, "unknown")]) +
      (if Truthy(delta) then [ToolInputDelta(id, delta.value)] else [])
    case ItemDone(_, done) =>
      var known := Under(before, DoneKey(e).value);
      if known.Some? then CallFrames(Final(known, done))
      else if DoneWith(before, e, Message) && Truthy(OpenText(before)) then [TextEnd(OpenText(before).value)]
      else if DoneWith(before, e, Reasoning) && Truthy(OpenReasoning(before)) then
        [ReasoningEnd(OpenReasoning(before).value)]
      else []
    case Completed(model) => Trailer(before, model, "stop", "completed")
    case Incomplete(model, reason) =>
      Trailer(before, model, if reason == Some("max_output_tokens") then "length" else "other",
        if reason.Some? then reason.value else "incomplete")
    case Failed(model, message, code, kind) =>
      var named := if code.Some? then code.value else if kind.Some? then kind.value else "provider_error";
      [ErrorFrame(named, if message.Some? then message.value else "upstream failed")] +
      Trailer(before, model, "error", "failed")
  }

  /** The frames of the events up to the first end. */
  function FramesUpto(events: Events): seq<Frame> {
    match events
    case NoEvents => []
    case Read(before, e) => FramesUpto(before) + if SomeEnd(before) then [] else FramesFor(before, e)
  }

  /** An upstream that just stops is finished as if it had been cut off. */
  function AllFrames(events: Events): seq<Frame> {
    FramesUpto(events) + if SomeEnd(events) then [] else Trailer(events, None, "other", "adapter_eof")
  }

  // ---- The translator sends them -------------------------------------------------------------------

  /** The variables are what looking back finds. */
  ghost predicate Remembers(s: State, events: Events) {
    && Tracks(s.tools, events) && AllStarted(s.tools)
    && s.textId == OpenText(events) && s.reasoningId == OpenReasoning(events)
    && s.metadataSent == Announced(events) && s.sawToolCall == Called(events)
    && (!s.metadataSent ==> s.modelId == "unknown")
  }

  ghost predicate InHistory(s: State, events: Events) {
    && ListOf(s.out) == FramesUpto(events)
    && (s.finished <==> SomeEnd(events))
    && (!s.finished ==> Remembers(s, events))
  }

  lemma {:induction false} CallSends(s: State, tool: Tool)
    requires tool.started
    ensures ListOf(CallTool(s, tool).out) == ListOf(s.out) + CallFrames(Some(CallOf(tool)))
    ensures CallTool(s, tool) == s.(out := CallTool(s, tool).out, sawToolCall := true)
  {
    var t := Emit(s, ToolInputEnd(tool.callId));
    assert ListOf(t.out) == ListOf(s.out) + [ToolInputEnd(tool.callId)];
  }

  lemma {:induction false} ClosingSends(s: State, events: Events)
    requires Agrees(s.tools, FxSpeech.History(events)) && AllStarted(s.tools)
    ensures ListOf(CloseOpenTools(s).out) == ListOf(s.out) + AllCalls(events, Keys(s.tools))
    ensures CloseOpenTools(s).sawToolCall == (s.sawToolCall || Keys(s.tools) != [])
    ensures CloseOpenTools(s).finished == s.finished
    decreases s.tools
  {
    hide CallTool, ListOf, Under, CallFrames;
    if s.tools.Entry? {
      var t := CallTool(s, s.tools.tool).(tools := s.tools.rest);
      CallSends(s, s.tools.tool);
      ClosingSends(t, events);
      assert Keys(s.tools)[1..] == Keys(s.tools.rest);
      assert FxSpeech.History(events)(s.tools.key) == Under(events, s.tools.key);
    }
  }

  /** Ending a block sends one frame if it is open. */
  lemma {:induction false} BlockEnds(s: State)
    ensures ListOf(EndText(s).out) == ListOf(s.out) + if Truthy(s.textId) then [TextEnd(s.textId.value)] else []
    ensures ListOf(EndReasoning(s).out) ==
      ListOf(s.out) + if Truthy(s.reasoningId) then [ReasoningEnd(s.reasoningId.value)] else []
    ensures EndText(s) == s.(out := EndText(s).out, textId := EndText(s).textId)
    ensures EndReasoning(s) == s.(out := EndReasoning(s).out, reasoningId := EndReasoning(s).reasoningId)
    ensures EndText(s).textId == if Truthy(s.textId) then None else s.textId
    ensures EndReasoning(s).reasoningId == if Truthy(s.reasoningId) then None else s.reasoningId
  {
  }

  /** Starting a block sends one frame unless one is open. */
  lemma {:induction false} BlockStarts(s: State, id: string)
    ensures ListOf(StartText(s, id).out) == ListOf(s.out) + if Truthy(s.textId) then [] else [TextStart(id)]
    ensures ListOf(StartReasoning(s, id).out) ==
      ListOf(s.out) + if Truthy(s.reasoningId) then [] else [ReasoningStart(id)]
    ensures StartText(s, id) == s.(out := StartText(s, id).out, textId := StartText(s, id).textId)
    ensures StartReasoning(s, id) ==
      s.(out := StartReasoning(s, id).out, reasoningId := StartReasoning(s, id).reasoningId)
    ensures StartText(s, id).textId == if Truthy(s.textId) then s.textId else Some(id)
    ensures StartReasoning(s, id).reasoningId == if Truthy(s.reasoningId) then s.reasoningId else Some(id)
  {
  }

  /** Metadata and open blocks, as a finish settles them before it closes the calls. */
  lemma {:induction false} BlocksSettle(s: State)
    ensures var t := EndText(EndReasoning(EmitMetadata(s)));
      && t == s.(out := t.out, textId := t.textId, reasoningId := t.reasoningId, metadataSent := true)
      && ListOf(t.out) == ListOf(s.out) +
          (if s.metadataSent then [] else [ResponseMetadata(s.modelId)]) +
          (if Truthy(s.reasoningId) then [ReasoningEnd(s.reasoningId.value)] else []) +
          (if Truthy(s.textId) then [TextEnd(s.textId.value)] else [])
  {
    hide ListOf, EndText, EndReasoning, EmitMetadata, Truthy;
    MetadataSends(s);
    BlockEnds(EmitMetadata(s));
    BlockEnds(EndReasoning(EmitMetadata(s)));
  }

  /** Finishing sends the trailer. */
  lemma {:induction false} TrailerSends(s: State, events: Events, model: Option<string>, unified: string, raw: string)
    requires !s.finished && Remembers(s, events)
    ensures var t := FinishWith(RememberModel(s, model), unified, raw);
      t.finished && ListOf(t.out) == ListOf(s.out) + Trailer(events, model, unified, raw)
  {
    hide CloseOpenTools, Under, AllCalls, Waiting, Announced, OpenText, OpenReasoning, Called, Agrees, AllStarted;
    hide ListOf, EndText, EndReasoning, EmitMetadata, Trailer, FinishReason, RememberModel;
    var a := RememberModel(s, model).(finished := true);
    var d := EndText(EndReasoning(EmitMetadata(a)));
    RememberKeeps(s, model);
    BlocksSettle(a);
    ClosingSends(d, events);
    var t := CloseOpenTools(d);
    var finish := Finish(FinishReason(t.sawToolCall, unified), raw);
    LastTwo(t.out, finish);
    TrailerIs(s, events, model, unified, raw);
    Assembled(ListOf(s.out), if a.metadataSent then [] else [ResponseMetadata(a.modelId)],
      if Truthy(s.reasoningId) then [ReasoningEnd(s.reasoningId.value)] else [],
      if Truthy(s.textId) then [TextEnd(s.textId.value)] else [], AllCalls(events, Waiting(events)), [finish, Done]);
  }

  lemma {:induction false} RememberKeeps(s: State, model: Option<string>)
    ensures RememberModel(s, model) == s.(modelId := RememberModel(s, model).modelId)
  {
  }

  lemma {:induction false} Assembled<T>(base: seq<T>, w: seq<T>, x: seq<T>, y: seq<T>, z: seq<T>, end: seq<T>)
    ensures base + w + x + y + z + end == base + (w + x + y + z + end)
  {
  }

  /** The trailer in terms of the variables. */
  lemma {:induction false} TrailerIs(s: State, events: Events, model: Option<string>, unified: string, raw: string)
    requires Remembers(s, events)
    ensures Trailer(events, model, unified, raw) ==
      (if s.metadataSent then [] else [ResponseMetadata(RememberModel(s, model).modelId)]) +
      (if Truthy(s.reasoningId) then [ReasoningEnd(s.reasoningId.value)] else []) +
      (if Truthy(s.textId) then [TextEnd(s.textId.value)] else []) +
      AllCalls(events, Waiting(events)) +
      [Finish(FinishReason(s.sawToolCall || Keys(s.tools) != [], unified), raw), Done]
  {
    hide AllCalls, Waiting, Announced, OpenText, OpenReasoning, Called, AllStarted, Holds;
  }

  lemma {:induction false} MetadataSends(s: State)
    ensures ListOf(EmitMetadata(s).out) == ListOf(s.out) + if s.metadataSent then [] else [ResponseMetadata(s.modelId)]
    ensures EmitMetadata(s) == s.(out := EmitMetadata(s).out, metadataSent := true)
  {
  }

  lemma {:induction false} LastTwo(out: Frames, finish: Frame)
    ensures ListOf(Sent(Sent(out, finish), Done)) == ListOf(out) + [finish, Done]
  {
    assert ListOf(Sent(out, finish)) == ListOf(out) + [finish];
  }

  lemma {:induction false} EndSends(s: State, before: Events, e: Event, model: Option<string>, unified: string,
      raw: string)
    requires InHistory(s, before) && !s.finished && Ends(e) && !e.Failed?
    requires FramesFor(before, e) == Trailer(before, model, unified, raw)
    ensures InHistory(FinishWith(RememberModel(s, model), unified, raw), Read(before, e))
  {
    hide Remembers, FinishWith, Trailer, FramesFor, RememberModel;
    TrailerSends(s, before, model, unified, raw);
  }

  lemma {:induction false} FailureSends(s: State, before: Events, e: Event)
    requires InHistory(s, before) && !s.finished && e.Failed?
    ensures InHistory(Handle(s, e), Read(before, e))
  {
    hide FinishWith, Trailer, RememberModel, FramesUpto, ListOf, SomeEnd, Tracks, OpenText, OpenReasoning, Announced;
    hide Called, AllStarted;
    var error := ErrorFrame(Or(OrElse(e.code, e.kind), "provider_error"), Or(e.message, "upstream failed"));
    var t := Emit(s, error);
    RememberKeeps(s, e.model);
    assert Emit(RememberModel(s, e.model), error) == RememberModel(t, e.model) by { RememberFirst(s, e.model, error); }
    OneMore(s.out, error);
    FramesMore(before, e);
    TrailerSends(t, before, e.model, "error", "failed");
  }

  lemma {:induction false} RememberFirst(s: State, model: Option<string>, f: Frame)
    ensures Emit(RememberModel(s, model), f) == RememberModel(Emit(s, f), model)
  {
  }

  lemma {:induction false} FramesMore(before: Events, e: Event)
    requires !SomeEnd(before)
    ensures FramesUpto(Read(before, e)) == FramesUpto(before) + FramesFor(before, e)
    ensures SomeEnd(Read(before, e)) <==> Ends(e)
  {
  }

  /** What an event leaves as it was. */
  lemma {:induction false} LeavesAlone(before: Events, e: Event)
    ensures e.TextPart? || e.ItemAdded? || e.ItemDone? || OpenText(Read(before, e)) == OpenText(before)
    ensures e.ReasoningPart? || e.ItemAdded? || e.ItemDone? || OpenReasoning(Read(before, e)) == OpenReasoning(before)
    ensures !e.Created? ==> Announced(Read(before, e)) == Announced(before)
    ensures !e.ItemDone? ==> Called(Read(before, e)) == Called(before)
  {
    hide Under;
  }

  lemma {:induction false} AddedHistory(before: Events, e: Event)
    requires e.ItemAdded?
    ensures OpenText(Read(before, e)) ==
      if !Truthy(OpenText(before)) && e.added.Some? && e.added.value.kind == Message then
        Some(NonEmptyOr(Or(e.added.value.id, ""), "txt"))
      else OpenText(before)
    ensures OpenReasoning(Read(before, e)) ==
      if !Truthy(OpenReasoning(before)) && e.added.Some? && e.added.value.kind == Reasoning then
        Some(NonEmptyOr(Or(e.added.value.id, ""), "rs"))
      else OpenReasoning(before)
  {
  }

  lemma {:induction false} DeltaHistory(before: Events, e: Event)
    ensures e.TextPart? ==>
        var was := OpenText(before);
        OpenText(Read(before, e)) == if !Truthy(was) && Truthy(e.delta) then Some(TextItem(was, e.itemId)) else was
    ensures e.ReasoningPart? ==>
        var was := OpenReasoning(before);
        OpenReasoning(Read(before, e)) ==
          if !Truthy(was) && Truthy(e.delta) then Some(ReasoningItem(was, e.itemId)) else was
  {
  }

  lemma {:induction false} DoneHistory(before: Events, e: Event)
    requires e.ItemDone?
    ensures OpenText(Read(before, e)) ==
      if DoneWith(before, e, Message) && Truthy(OpenText(before)) then None else OpenText(before)
    ensures OpenReasoning(Read(before, e)) ==
      if DoneWith(before, e, Reasoning) && Truthy(OpenReasoning(before)) then None else OpenReasoning(before)
    ensures Called(Read(before, e)) <==> Called(before) || Under(before, DoneKey(e).value).Some?
  {
    hide Under;
  }

  /** An event that leaves the calls alone: the table is still the history. */
  lemma {:induction false} CreatedSends(s: State, before: Events, e: Event)
    requires InHistory(s, before) && !s.finished && (e.Ignored? || e.Created? || e == ItemAdded(None))
    ensures InHistory(Handle(s, e), Read(before, e))
  {
    hide Tracks, AllStarted, Under, Waiting, OpenText, OpenReasoning, Called, FramesUpto, SomeEnd, ListOf;
    SameTracks(s.tools, before, e);
    FramesMore(before, e);
    LeavesAlone(before, e);
    if e.ItemAdded? {
      AddedHistory(before, e);
    }
    if e.Created? {
      MetadataSends(RememberModel(s, e.model));
    }
  }

  lemma {:induction false} AddedSends(s: State, before: Events, item: AddedItem)
    requires InHistory(s, before) && !s.finished
    ensures InHistory(HandleAdded(s, item), Read(before, ItemAdded(Some(item))))
  {
    hide Tracks, AllStarted, Under, Waiting, Put, OpenText, OpenReasoning, Announced, Called, FramesUpto, SomeEnd;
    hide ListOf, StartText, StartReasoning;
    var e := ItemAdded(Some(item));
    FramesMore(before, e);
    LeavesAlone(before, e);
    AddedHistory(before, e);
    match item.kind
    case FunctionCall =>
      var callId, name := Or(item.callId, Or(item.id, "")), Or(item.name, "unknown");
      var tool := Tool(callId, name, "", true);
      var key := NonEmptyOr(Or(item.id, ""), callId);
      PutTracks(s.tools, before, e, key, tool);
      PutHolds(s.tools, key, tool, callId);
      OneMore(s.out, ToolInputStart(callId, name));
    case Message =>
      SameTracks(s.tools, before, e);
      BlockStarts(s, NonEmptyOr(Or(item.id, ""), "txt"));
    case Reasoning =>
      SameTracks(s.tools, before, e);
      BlockStarts(s, NonEmptyOr(Or(item.id, ""), "rs"));
    case OtherKind =>
      SameTracks(s.tools, before, e);
  }

  lemma {:induction false} TextSends(s: State, before: Events, e: Event)
    requires InHistory(s, before) && !s.finished && e.TextPart?
    ensures InHistory(Handle(s, e), Read(before, e))
  {
    hide Tracks, AllStarted, Under, Waiting, StartText, ListOf, OpenText, OpenReasoning, Announced, Called;
    hide FramesUpto, SomeEnd;
    SameTracks(s.tools, before, e);
    FramesMore(before, e);
    LeavesAlone(before, e);
    DeltaHistory(before, e);
    var id := Or(OrElse(e.itemId, s.textId), "txt");
    var t := StartText(s, id);
    BlockStarts(s, id);
    OneMore(t.out, TextDelta(id, Or(e.delta, "")));
  }

  lemma {:induction false} ReasoningSends(s: State, before: Events, e: Event)
    requires InHistory(s, before) && !s.finished && e.ReasoningPart?
    ensures InHistory(Handle(s, e), Read(before, e))
  {
    hide Tracks, AllStarted, Under, Waiting, StartReasoning, ListOf, OpenText, OpenReasoning, Announced, Called;
    hide FramesUpto, SomeEnd;
    SameTracks(s.tools, before, e);
    FramesMore(before, e);
    LeavesAlone(before, e);
    DeltaHistory(before, e);
    var id := Or(OrElse(e.itemId, s.reasoningId), "rs");
    var t := StartReasoning(s, id);
    BlockStarts(s, id);
    OneMore(t.out, ReasoningDelta(id, Or(e.delta, "")));
  }

  lemma {:induction false} ArgumentsSend(s: State, before: Events, e: Event)
    requires InHistory(s, before) && !s.finished && e.ArgumentsPart?
    ensures InHistory(Handle(s, e), Read(before, e))
  {
    var u := HandleArguments(s, Or(e.itemId, ""), Or(e.delta, ""));
    TableTakesArguments(s, before, e);
    FramesOfArguments(s, before, e);
    FramesMore(before, e);
    LeavesAlone(before, e);
    hide HandleArguments, FramesFor, Tracks, AllStarted, ListOf, Under, Waiting, OpenText, OpenReasoning, Announced;
    hide Called, FramesUpto, SomeEnd;
    assert Handle(s, e) == u;
  }

  lemma {:induction false} TableTakesArguments(s: State, before: Events, e: Event)
    requires e.ArgumentsPart? && Tracks(s.tools, before) && AllStarted(s.tools)
    ensures var u := HandleArguments(s, Or(e.itemId, ""), Or(e.delta, ""));
      && Tracks(u.tools, Read(before, e)) && AllStarted(u.tools) && u == s.(out := u.out, tools := u.tools)
  {
    hide Tracks, AllStarted, Under, Waiting, Put;
    var itemId, delta := Or(e.itemId, ""), Or(e.delta, "");
    KnownCall(s.tools, before, itemId);
    var known := Get(s.tools, itemId);
    var key := if known.Some? then itemId else NonEmptyOr(itemId, "call");
    var tool := if known.Some? then known.value else Tool(NonEmptyOr(itemId, "call"), "unknown", "", false);
    var more := tool.(started := true, arguments := tool.arguments + delta);
    SpelledArguments(before, e, known);
    assert "" + delta == delta;
    PutTracks(s.tools, before, e, key, more);
    PutHolds(s.tools, key, more, "");
  }

  lemma {:induction false} FramesOfArguments(s: State, before: Events, e: Event)
    requires e.ArgumentsPart? && Tracks(s.tools, before) && AllStarted(s.tools)
    ensures ListOf(HandleArguments(s, Or(e.itemId, ""), Or(e.delta, "")).out) == ListOf(s.out) + FramesFor(before, e)
  {
    hide Tracks, AllStarted, Under, Waiting, Put, ListOf;
    var itemId, delta := Or(e.itemId, ""), Or(e.delta, "");
    KnownCall(s.tools, before, itemId);
    StartedCall(s.tools, itemId);
    var known := Get(s.tools, itemId);
    var tool := if known.Some? then known.value else Tool(NonEmptyOr(itemId, "call"), "unknown", "", false);
    var t := if tool.started then s else Emit(s, ToolInputStart(tool.callId, tool.name));
    OneMore(s.out, ToolInputStart(tool.callId, tool.name));
    OneMore(t.out, ToolInputDelta(tool.callId, delta));
  }

  lemma {:induction false} StartedCall(tools: Tools, key: string)
    requires AllStarted(tools)
    ensures Get(tools, key).Some? ==> Get(tools, key).value.started
  {
    if tools.Entry? && tools.key != key {
      StartedCall(tools.rest, key);
    }
  }

  lemma {:induction false} DoneSends(s: State, before: Events, e: Event)
    requires InHistory(s, before) && !s.finished && e.ItemDone?
    ensures InHistory(Handle(s, e), Read(before, e))
  {
    var key := DoneKey(e).value;
    assert Tracks(s.tools, before);
    KnownCall(s.tools, before, key);
    DropTracks(s.tools, before, e);
    if Get(s.tools, key).Some? {
      CallDoneSends(s, before, e);
    } else {
      BlockDoneSends(s, before, e);
    }
  }

  lemma {:induction false} CallDoneSends(s: State, before: Events, e: Event)
    requires InHistory(s, before) && !s.finished && e.ItemDone?
    requires Get(s.tools, DoneKey(e).value).Some? && Tracks(Drop(s.tools, DoneKey(e).value), Read(before, e))
    requires Under(before, DoneKey(e).value) == Some(CallOf(Get(s.tools, DoneKey(e).value).value))
    ensures InHistory(Handle(s, e), Read(before, e))
  {
    hide Tracks, AllStarted, Under, Waiting, Drop, CallTool, ListOf, CallFrames, OpenText, OpenReasoning, Announced;
    hide Called, FramesUpto, SomeEnd;
    FramesMore(before, e);
    LeavesAlone(before, e);
    DoneHistory(before, e);
    var key := DoneKey(e).value;
    StartedCall(s.tools, key);
    DropHolds(s.tools, key, "");
    var known := Get(s.tools, key).value;
    var tool :=
      if e.done.Some? && Truthy(e.done.value.arguments) then known.(arguments := e.done.value.arguments.value)
      else known;
    CallSends(s, tool);
  }

  lemma {:induction false} BlockDoneSends(s: State, before: Events, e: Event)
    requires InHistory(s, before) && !s.finished && e.ItemDone?
    requires Get(s.tools, DoneKey(e).value).None? && Tracks(s.tools, Read(before, e))
    requires Under(before, DoneKey(e).value).None?
    ensures InHistory(Handle(s, e), Read(before, e))
  {
    hide Tracks, AllStarted, Under, Waiting, ListOf, EndText, EndReasoning, OpenText, OpenReasoning, Announced, Called;
    hide FramesUpto, SomeEnd;
    FramesMore(before, e);
    LeavesAlone(before, e);
    DoneHistory(before, e);
    BlockEnds(s);
  }

  lemma {:induction false} EventSends(s: State, before: Events, e: Event)
    requires InHistory(s, before) && !s.finished
    ensures InHistory(Handle(s, e), Read(before, e))
  {
    hide InHistory, FinishWith, HandleAdded, HandleDone, HandleArguments;
    match e
    case Terminator => EndSends(s, before, e, None, "stop", "stop");
    case Ignored => CreatedSends(s, before, e);
    case Created(_) => CreatedSends(s, before, e);
    case ItemAdded(added) =>
      if added.Some? {
        AddedSends(s, before, added.value);
      } else {
        CreatedSends(s, before, e);
      }
    case TextPart(_, _) => TextSends(s, before, e);
    case ReasoningPart(_, _) => ReasoningSends(s, before, e);
    case ArgumentsPart(_, _) => ArgumentsSend(s, before, e);
    case ItemDone(_, _) => DoneSends(s, before, e);
    case Completed(model) => EndSends(s, before, e, model, "stop", "completed");
    case Incomplete(model, reason) =>
      var unified := if reason == Some("max_output_tokens") then "length" else "other";
      EndSends(s, before, e, model, unified, Or(reason, "incomplete"));
    case Failed(_, _, _, _) => FailureSends(s, before, e);
  }

  /** After every event the frames sent are those the history asks for. */
  lemma {:induction false} HistorySoFar(events: Events)
    ensures InHistory(Consume(events), events)
  {
    hide Handle, InHistory;
    if events.Read? {
      var s := Consume(events.before);
      HistorySoFar(events.before);
      if s.finished {
        SilentAfterTheEnd(s, events.before, events.event);
      } else {
        EventSends(s, events.before, events.event);
      }
    } else {
      AtTheStart();
    }
  }

  lemma {:induction false} SilentAfterTheEnd(s: State, before: Events, e: Event)
    requires InHistory(s, before) && s.finished
    ensures InHistory(s, Read(before, e))
  {
  }

  lemma {:induction false} AtTheStart()
    ensures InHistory(Initial, NoEvents)
  {
    assert Holds(NoTools, FxSpeech.History(NoEvents));
  }

  /** The translator with its variables and its table sends exactly the frames read off the event history. */
  lemma {:induction false} SendsWhatHistoryAsks(events: Events)
    ensures ListOf(Translate(events).out) == AllFrames(events)
  {
    hide Consume, FinishWith, FramesUpto, Trailer, Remembers;
    HistorySoFar(events);
    var s := Consume(events);
    if s.finished {
      FinishedStays(s, "other", "adapter_eof");
    } else {
      TrailerSends(s, events, None, "other", "adapter_eof");
      assert RememberModel(s, None) == s;
    }
  }

  // ---- What that says of the metadata and the finish -------------------------------------------------

  /** The model a client is told: the first one named before the end, or the one the end names, or none. */
  function ModelOf(events: Events): Option<string> {
    match events
    case NoEvents => None
    case Read(before, e) =>
      if ModelOf(before).Some? || SomeEnd(before) then ModelOf(before)
      else if e.Created? && Truthy(e.model) then e.model
      else if (e.Completed? || e.Incomplete? || e.Failed?) && Truthy(e.model) then e.model
      else None
  }

  lemma {:induction false} NoModelInCalls(events: Events, keys: seq<string>, f: Frame)
    ensures f in AllCalls(events, keys) ==> f.ToolInputEnd? || f.ToolCall?
  {
    if keys != [] {
      NoModelInCalls(events, keys[1..], f);
    }
  }

  lemma {:induction false} TrailerModel(events: Events, model: Option<string>, unified: string, raw: string,
      name: string)
    ensures ResponseMetadata(name) in Trailer(events, model, unified, raw) <==>
      !Announced(events) && name == if Truthy(model) then model.value else "unknown"
  {
    hide AllCalls, Announced, OpenText, OpenReasoning, Called, Waiting;
    NoModelInCalls(events, Waiting(events), ResponseMetadata(name));
  }

  /** When the frames of one event name a model. */
  lemma {:induction false} FramesModel(before: Events, e: Event, name: string)
    requires !SomeEnd(before)
    ensures ResponseMetadata(name) in FramesFor(before, e) <==>
      !Announced(before) &&
      if Ends(e) then name == (if !e.Terminator? && Truthy(e.model) then e.model.value else "unknown")
      else e.Created? && Truthy(e.model) && e.model == Some(name)
  {
    hide Trailer, Under, Waiting, OpenText, OpenReasoning, Announced, Final;
    if Ends(e) {
      hide FramesFor, EndingOf;
      var ending := EndingOf(Read(before, e));
      EndFrames(before, e);
      TrailerModel(before, if e.Terminator? then None else e.model, ending.unified, ending.raw, name);
    }
  }

  lemma {:induction false} ModelSoFar(events: Events, name: string)
    ensures !SomeEnd(events) ==> (Announced(events) <==> ModelOf(events).Some?)
    ensures ResponseMetadata(name) in FramesUpto(events) <==>
      if SomeEnd(events) then name == Or(ModelOf(events), "unknown") else ModelOf(events) == Some(name)
  {
    if events.Read? {
      hide FramesFor;
      ModelSoFar(events.before, name);
      if !SomeEnd(events.before) {
        FramesModel(events.before, events.event, name);
      }
    }
  }

  /** Every stream announces one model: the first one its events name before the end, the end's own, or "unknown". */
  lemma {:induction false} MetadataNamesTheModel(events: Events, name: string)
    ensures ResponseMetadata(name) in ListOf(Translate(events).out) <==> name == Or(ModelOf(events), "unknown")
  {
    hide Trailer, FramesUpto, ModelOf, Announced;
    SendsWhatHistoryAsks(events);
    ModelSoFar(events, name);
    TrailerModel(events, None, "other", "adapter_eof", name);
  }

  /** How the first end of the events is put to the client: reason, its upstream name, and the error before it. */
  datatype Ending = Ending(unified: string, raw: string, error: Option<(string, string)>)

  function EndingOf(events: Events): Ending {
    match events
    case NoEvents => Ending("other", "adapter_eof", None)
    case Read(before, e) =>
      if SomeEnd(before) then EndingOf(before)
      else
        match e
        case Terminator => Ending("stop", "stop", None)
        case Completed(_) => Ending("stop", "completed", None)
        case Incomplete(_, None) => Ending("other", "incomplete", None)
        case Incomplete(_, Some(reason)) =>
          Ending(if reason == "max_output_tokens" then "length" else "other", reason, None)
        case Failed(_, message, code, kind) =>
          Ending("error", "failed",
            Some((if code.Some? then code.value else if kind.Some? then kind.value else "provider_error",
                  if message.Some? then message.value else "upstream failed")))
        case _ => Ending("other", "adapter_eof", None)
  }

  predicate SomeCall(frames: seq<Frame>) { exists f :: f in frames && f.ToolCall? }

  /** A trailer's calls are what makes it report calls. */
  lemma {:induction false} CallsInTrailer(events: Events, keys: seq<string>)
    requires forall key :: key in keys ==> Under(events, key).Some?
    ensures keys != [] <==> SomeCall(AllCalls(events, keys))
  {
    if keys != [] {
      assert keys[0] in keys;
      var call := Under(events, keys[0]).value;
      assert ToolCall(call.id, call.name, call.arguments) in AllCalls(events, keys);
    }
  }

  lemma {:induction false} WaitingAreUnder(s: State, events: Events)
    requires Remembers(s, events)
    ensures forall key :: key in Waiting(events) ==> Under(events, key).Some?
  {
    forall key | key in Waiting(events) ensures Under(events, key).Some? {
      KeysAreHeld(s.tools, key);
      assert FxSpeech.History(events)(key) == Under(events, key);
    }
  }

  lemma {:induction false} KeysAreHeld(tools: Tools, key: string)
    ensures key in Keys(tools) <==> HasKey(tools, key)
  {
    if tools.Entry? {
      KeysAreHeld(tools.rest, key);
    }
  }

  /** The stream ends in one finish and the end mark; the first end of the events decides what they say. */
  lemma {:induction false} FinishTellsTheEnd(events: Events)
    ensures var frames, ending := ListOf(Translate(events).out), EndingOf(events);
      && |frames| >= 2 && frames[|frames| - 1] == Done
      && frames[|frames| - 2] == Finish(
          if ending.unified == "stop" && SomeCall(frames) then "tool-calls" else ending.unified, ending.raw)
      && (forall code, message :: ErrorFrame(code, message) in frames <==> ending.error == Some((code, message)))
  {
    hide FramesUpto, Trailer, EndingOf, ListOf, Translate;
    SendsWhatHistoryAsks(events);
    EndingSoFar(events);
    if !SomeEnd(events) {
      HistorySoFar(events);
      WaitingAreUnder(Consume(events), events);
      TrailerTells(events, None, "other", "adapter_eof");
      NoEndYet(events);
      TailOfTwo(FramesUpto(events), Trailer(events, None, "other", "adapter_eof"));
    }
  }

  lemma {:induction false} TailOfTwo(front: seq<Frame>, back: seq<Frame>)
    requires |back| >= 2
    ensures (front + back)[|front + back| - 1] == back[|back| - 1]
    ensures (front + back)[|front + back| - 2] == back[|back| - 2]
    ensures SomeCall(front + back) <==> SomeCall(front) || SomeCall(back)
    ensures forall f :: f in front + back <==> f in front || f in back
  {
  }

  lemma {:induction false} NoEndYet(events: Events)
    requires !SomeEnd(events)
    ensures EndingOf(events) == Ending("other", "adapter_eof", None)
  {
  }

  lemma {:induction false} TrailerTells(events: Events, model: Option<string>, unified: string, raw: string)
    requires forall key :: key in Waiting(events) ==> Under(events, key).Some?
    ensures var frames := Trailer(events, model, unified, raw);
      && |frames| >= 2 && frames[|frames| - 1] == Done
      && frames[|frames| - 2] ==
        Finish(if unified == "stop" && (Called(events) || SomeCall(frames)) then "tool-calls" else unified, raw)
      && (forall f :: f in frames ==> !f.ErrorFrame?)
  {
    hide AllCalls, Under, Announced, OpenText, OpenReasoning, Called, Waiting;
    CallsInTrailer(events, Waiting(events));
    var calls := AllCalls(events, Waiting(events));
    forall f | f in calls ensures !f.ErrorFrame? {
      NoModelInCalls(events, Waiting(events), f);
    }
    var frames := Trailer(events, model, unified, raw);
    assert forall f :: f in calls ==> f in frames;
    assert forall f :: f in frames && f.ToolCall? ==> f in calls;
  }

  /** Before the end: no error frame, and a call frame once a call was done with. After it: the finish. */
  lemma {:induction false} EndingSoFar(events: Events)
    ensures var frames, ending := FramesUpto(events), EndingOf(events);
      && (!SomeEnd(events) ==>
          (Called(events) <==> SomeCall(frames)) && forall f :: f in frames ==> !f.ErrorFrame?)
      && (SomeEnd(events) ==>
          && |frames| >= 2 && frames[|frames| - 1] == Done
          && frames[|frames| - 2] == Finish(
              if ending.unified == "stop" && SomeCall(frames) then "tool-calls" else ending.unified, ending.raw)
          && (forall code, message :: ErrorFrame(code, message) in frames <==> ending.error == Some((code, message))))
  {
    if events.Read? {
      var before, e := events.before, events.event;
      EndingSoFar(before);
      if !SomeEnd(before) {
        if Ends(e) {
          EndingNow(before, e);
        } else {
          NoEndingYet(before, e);
        }
      }
    }
  }

  lemma {:induction false} NoEndingYet(before: Events, e: Event)
    requires !Ends(e)
    ensures forall f :: f in FramesFor(before, e) ==> !f.ErrorFrame?
    ensures SomeCall(FramesFor(before, e)) <==> e.ItemDone? && Under(before, DoneKey(e).value).Some?
  {
    hide Under, OpenText, OpenReasoning, Announced;
    if e.ItemDone? && Under(before, DoneKey(e).value).Some? {
      var call := Final(Under(before, DoneKey(e).value), e.done).value;
      assert ToolCall(call.id, call.name, call.arguments) in FramesFor(before, e);
    }
  }

  lemma {:induction false} EndingNow(before: Events, e: Event)
    requires !SomeEnd(before) && Ends(e)
    requires Called(before) <==> SomeCall(FramesUpto(before))
    requires forall f :: f in FramesUpto(before) ==> !f.ErrorFrame?
    ensures var frames, ending := FramesUpto(Read(before, e)), EndingOf(Read(before, e));
      && |frames| >= 2 && frames[|frames| - 1] == Done
      && frames[|frames| - 2] == Finish(
          if ending.unified == "stop" && SomeCall(frames) then "tool-calls" else ending.unified, ending.raw)
      && (forall code, message :: ErrorFrame(code, message) in frames <==> ending.error == Some((code, message)))
  {
    hide Trailer, Called, Under, Waiting, SomeCall, Remembers, EndingOf, FramesFor;
    var ending := EndingOf(Read(before, e));
    var model := if e.Terminator? then None else e.model;
    var trailer := Trailer(before, model, ending.unified, ending.raw);
    var error := if ending.error.Some? then [ErrorFrame(ending.error.value.0, ending.error.value.1)] else [];
    EndFrames(before, e);
    HistorySoFar(before);
    WaitingAreUnder(Consume(before), before);
    TrailerTells(before, model, ending.unified, ending.raw);
    EndingAddsUp(before, FramesUpto(before), error, trailer, ending);
  }

  lemma {:induction false} EndFrames(before: Events, e: Event)
    requires !SomeEnd(before) && Ends(e)
    ensures var ending := EndingOf(Read(before, e));
      var model := if e.Terminator? then None else e.model;
      var error := if ending.error.Some? then [ErrorFrame(ending.error.value.0, ending.error.value.1)] else [];
      FramesFor(before, e) == error + Trailer(before, model, ending.unified, ending.raw)
  {
    hide Trailer;
  }

  lemma {:induction false} EndingAddsUp(before: Events, front: seq<Frame>, error: seq<Frame>, trailer: seq<Frame>,
      ending: Ending)
    requires (Called(before) <==> SomeCall(front)) && forall f :: f in front ==> !f.ErrorFrame?
    requires |trailer| >= 2 && trailer[|trailer| - 1] == Done && forall f :: f in trailer ==> !f.ErrorFrame?
    requires trailer[|trailer| - 2] == Finish(
      if ending.unified == "stop" && (Called(before) || SomeCall(trailer)) then "tool-calls" else ending.unified,
      ending.raw)
    requires error == if ending.error.Some? then [ErrorFrame(ending.error.value.0, ending.error.value.1)] else []
    ensures var frames := front + (error + trailer);
      && |frames| >= 2 && frames[|frames| - 1] == Done
      && frames[|frames| - 2] == Finish(
          if ending.unified == "stop" && SomeCall(frames) then "tool-calls" else ending.unified, ending.raw)
      && (forall code, message :: ErrorFrame(code, message) in frames <==> ending.error == Some((code, message)))
  {
    hide Called;
    TailOfTwo(error, trailer);
    TailOfTwo(front, error + trailer);
    hide SomeCall;
    assert !SomeCall(error) by { NoCallInError(error); }
  }

  lemma {:induction false} NoCallInError(error: seq<Frame>)
    requires forall f :: f in error ==> f.ErrorFrame?
    ensures !SomeCall(error)
  {
  }
}
