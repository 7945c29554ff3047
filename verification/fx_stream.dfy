/** The frames both translators send, and JavaScript's notions of presence. */
module FxFrames {
  import opened Wrappers

  datatype Frame =
    | ResponseMetadata(model: string)
    | TextStart(id: string) | TextDelta(id: string, delta: string) | TextEnd(id: string)
    | ReasoningStart(id: string) | ReasoningDelta(id: string, delta: string) | ReasoningEnd(id: string)
    | ToolInputStart(id: string, name: string) | ToolInputDelta(id: string, delta: string) | ToolInputEnd(id: string)
    | ToolCall(id: string, name: string, arguments: string)
    | ErrorFrame(code: string, message: string)
    | Finish(unified: string, raw: string)
    | Done

  /** The frames yielded so far, oldest innermost. */
  datatype Frames = Nothing | Sent(earlier: Frames, frame: Frame)

  /** The same as a list, oldest first. */
  function ListOf(out: Frames): seq<Frame> {
    match out
    case Nothing => []
    case Sent(earlier, f) => ListOf(earlier) + [f]
  }

  lemma {:induction false} OneMore(out: Frames, f: Frame)
    ensures ListOf(Sent(out, f)) == ListOf(out) + [f]
  {
  }

  function OrElse(a: Option<string>, b: Option<string>): Option<string> { if a.Some? then a else b }

  /** `a || b`. */
  function NonEmptyOr(a: string, b: string): string { if a != "" then a else b }

  /** A variable holding a string counts as set only when the string is not empty. */
  predicate Truthy(a: Option<string>) { a.Some? && a.value != "" }

  /** Presence as JavaScript has it: `??` asks for a value, `||` and conditions for a string that is not empty. */
  lemma {:induction false} Presence(x: string, y: string, a: Option<string>)
    ensures Or(None, y) == y && Or(Some(x), y) == x
    ensures OrElse(None, a) == a && OrElse(Some(x), a) == Some(x)
    ensures NonEmptyOr("", y) == y && (x != "" ==> NonEmptyOr(x, y) == x)
    ensures !Truthy(None) && (Truthy(Some(x)) <==> x != "")
  {
  }

  predicate CalledTool(out: Frames) {
    out.Sent? && (out.frame.ToolCall? || CalledTool(out.earlier))
  }

  /** What a client gets to hear: a piece of text, a piece of reasoning, or a tool call. */
  datatype Speech = Say(text: string) | Think(text: string) | Ask(id: string, name: string, arguments: string)

  /** What the frames say, in order. */
  function Spoken(out: Frames): seq<Speech> {
    match out
    case Nothing => []
    case Sent(earlier, f) =>
      Spoken(earlier) +
        (match f
          case TextDelta(_, delta) => [Say(delta)]
          case ReasoningDelta(_, delta) => [Think(delta)]
          case ToolCall(id, name, arguments) => [Ask(id, name, arguments)]
          case _ => [])
  }

  /** Frames that carry no payload. */
  lemma {:induction false} SilentFrame(out: Frames, f: Frame)
    requires !f.TextDelta? && !f.ReasoningDelta? && !f.ToolCall?
    ensures Spoken(Sent(out, f)) == Spoken(out)
  {
  }
}

/** The translator from provider response events to the bracketed frame stream the client reads. */
module FxStream {
  import opened Wrappers
  import opened FxFrames

  datatype ItemKind = Message | Reasoning | FunctionCall | OtherKind

  datatype AddedItem = AddedItem(kind: ItemKind, id: Option<string>, callId: Option<string>, name: Option<string>)

  datatype DoneItem = DoneItem(kind: ItemKind, id: Option<string>, arguments: Option<string>)

  /** One upstream event after its JSON was read; a field that is not a string is `None`. */
  datatype Event =
    | Terminator
    | Ignored
    | Created(model: Option<string>)
    | ItemAdded(added: Option<AddedItem>)
    | TextPart(itemId: Option<string>, delta: Option<string>)
    | ReasoningPart(itemId: Option<string>, delta: Option<string>)
    | ArgumentsPart(itemId: Option<string>, delta: Option<string>)
    | ItemDone(itemId: Option<string>, done: Option<DoneItem>)
    | Completed(model: Option<string>)
    | Incomplete(model: Option<string>, reason: Option<string>)
    | Failed(model: Option<string>, message: Option<string>, code: Option<string>, kind: Option<string>)

  // ---- Open tools, in insertion order ----------------------------------------------------------

  datatype Tool = Tool(callId: string, name: string, arguments: string, started: bool)

  datatype Tools = NoTools | Entry(key: string, tool: Tool, rest: Tools)

  function Get(tools: Tools, key: string): Option<Tool> {
    match tools
    case NoTools => None
    case Entry(k, tool, rest) => if k == key then Some(tool) else Get(rest, key)
  }

  /** `Map.set`: a known key keeps its place and gets the new tool; a new key goes last. */
  function Put(tools: Tools, key: string, tool: Tool): Tools {
    match tools
    case NoTools => Entry(key, tool, NoTools)
    case Entry(k, was, rest) => if k == key then Entry(k, tool, rest) else Entry(k, was, Put(rest, key, tool))
  }

  function Drop(tools: Tools, key: string): Tools {
    match tools
    case NoTools => NoTools
    case Entry(k, tool, rest) => if k == key then rest else Entry(k, tool, Drop(rest, key))
  }

  // ---- The translator's state and its helpers ---------------------------------------------------

  datatype State = State(
    out: Frames,
    tools: Tools,
    textId: Option<string>,
    reasoningId: Option<string>,
    finished: bool,
    sawToolCall: bool,
    modelId: string,
    metadataSent: bool)

  const Initial := State(Nothing, NoTools, None, None, false, false, "unknown", false)

  function Emit(s: State, frame: Frame): State { s.(out := Sent(s.out, frame)) }

  function RememberModel(s: State, model: Option<string>): State {
    if Truthy(model) && !s.metadataSent then s.(modelId := model.value) else s
  }

  function EmitMetadata(s: State): State {
    if s.metadataSent then s else Emit(s, ResponseMetadata(s.modelId)).(metadataSent := true)
  }

  function StartText(s: State, id: string): State {
    if Truthy(s.textId) then s else Emit(s, TextStart(id)).(textId := Some(id))
  }

  function EndText(s: State): State {
    if Truthy(s.textId) then Emit(s, TextEnd(s.textId.value)).(textId := None) else s
  }

  function StartReasoning(s: State, id: string): State {
    if Truthy(s.reasoningId) then s else Emit(s, ReasoningStart(id)).(reasoningId := Some(id))
  }

  function EndReasoning(s: State): State {
    if Truthy(s.reasoningId) then Emit(s, ReasoningEnd(s.reasoningId.value)).(reasoningId := None) else s
  }

  /** Ends one tool's input and calls it. */
  function CallTool(s: State, tool: Tool): State {
    var t := if tool.started then s else Emit(s, ToolInputStart(tool.callId, tool.name));
    Emit(Emit(t, ToolInputEnd(tool.callId)), ToolCall(tool.callId, tool.name, tool.arguments)).(sawToolCall := true)
  }

  function CloseOpenTools(s: State): State
    decreases s.tools
  {
    match s.tools
    case NoTools => s
    case Entry(_, tool, rest) => CloseOpenTools(CallTool(s, tool).(tools := rest))
  }

  function FinishReason(sawToolCall: bool, unified: string): string {
    if sawToolCall && unified == "stop" then "tool-calls" else unified
  }

  /** Metadata if still owed, then every open block closed, then the finish and the end of the stream. */
  function FinishWith(s: State, unified: string, raw: string): State {
    if s.finished then s
    else
      var t := CloseOpenTools(EndText(EndReasoning(EmitMetadata(s.(finished := true)))));
      Emit(Emit(t, Finish(FinishReason(t.sawToolCall, unified), raw)), Done)
  }

  // ---- One event -------------------------------------------------------------------------------

  function HandleAdded(s: State, item: AddedItem): State {
    var itemId := Or(item.id, "");
    match item.kind
    case Message => StartText(s, NonEmptyOr(itemId, "txt"))
    case Reasoning => StartReasoning(s, NonEmptyOr(itemId, "rs"))
    case FunctionCall =>
      var callId, name := Or(item.callId, itemId), Or(item.name, "unknown");
      var key := NonEmptyOr(itemId, callId);
      Emit(s, ToolInputStart(callId, name)).(tools := Put(s.tools, key, Tool(callId, name, "", true)))
    case OtherKind => s
  }

  function HandleArguments(s: State, itemId: string, delta: string): State {
    var known := Get(s.tools, itemId);
    var key := if known.Some? then itemId else NonEmptyOr(itemId, NonEmptyOr(itemId, "call"));
    var tool := if known.Some? then known.value else Tool(NonEmptyOr(itemId, "call"), "unknown", "", false);
    var t := if tool.started then s else Emit(s, ToolInputStart(tool.callId, tool.name));
    var u := t.(tools := Put(s.tools, key, tool.(started := true, arguments := tool.arguments + delta)));
    if delta != "" then Emit(u, ToolInputDelta(tool.callId, delta)) else u
  }

  function HandleDone(s: State, id: Option<string>, item: Option<DoneItem>): State {
    var itemId := Or(OrElse(id, if item.Some? then item.value.id else None), "");
    var known := Get(s.tools, itemId);
    if known.Some? then
      var tool :=
        if item.Some? && Truthy(item.value.arguments) then known.value.(arguments := item.value.arguments.value)
        else known.value;
      CallTool(s, tool).(tools := Drop(s.tools, itemId))
    else if item.Some? && item.value.kind == Message then EndText(s)
    else if item.Some? && item.value.kind == Reasoning then EndReasoning(s)
    else s
  }

  function Handle(s: State, e: Event): State {
    match e
    case Terminator => FinishWith(s, "stop", "stop")
    case Ignored => s
    case Created(model) => if Truthy(model) then EmitMetadata(RememberModel(s, model)) else RememberModel(s, model)
    case ItemAdded(item) => if item.Some? then HandleAdded(s, item.value) else s
    case TextPart(itemId, delta) =>
      if !Truthy(delta) then s
      else
        var id := Or(OrElse(itemId, s.textId), "txt");
        Emit(StartText(s, id), TextDelta(id, delta.value))
    case ReasoningPart(itemId, delta) =>
      if !Truthy(delta) then s
      else
        var id := Or(OrElse(itemId, s.reasoningId), "rs");
        Emit(StartReasoning(s, id), ReasoningDelta(id, delta.value))
    case ArgumentsPart(itemId, delta) => HandleArguments(s, Or(itemId, ""), Or(delta, ""))
    case ItemDone(itemId, item) => HandleDone(s, itemId, item)
    case Completed(model) => FinishWith(RememberModel(s, model), "stop", "completed")
    case Incomplete(model, reason) =>
      FinishWith(RememberModel(s, model), if reason == Some("max_output_tokens") then "length" else "other",
        Or(reason, "incomplete"))
    case Failed(model, message, code, kind) =>
      var error := ErrorFrame(Or(OrElse(code, kind), "provider_error"), Or(message, "upstream failed"));
      FinishWith(Emit(RememberModel(s, model), error), "error", "failed")
  }

  /** The events read so far, oldest innermost. */
  datatype Events = NoEvents | Read(before: Events, event: Event)

  /** Once finished, the rest of the upstream is not looked at. */
  function Consume(events: Events): State {
    match events
    case NoEvents => Initial
    case Read(before, e) => var s := Consume(before); if s.finished then s else Handle(s, e)
  }

  /** The whole translation: an upstream that just ends is finished with "adapter_eof". */
  function Translate(events: Events): State {
    FinishWith(Consume(events), "other", "adapter_eof")
  }
}
