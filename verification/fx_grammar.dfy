/** What a client may rely on in the frame stream, and exactly when the translator delivers it. */
module FxGrammar {
  import opened Wrappers
  import opened FxFrames
  import opened FxStream

  // ---- Reading a frame stream ------------------------------------------------------------------

  function MetadataCount(out: Frames): nat {
    match out
    case Nothing => 0
    case Sent(earlier, frame) => MetadataCount(earlier) + if frame.ResponseMetadata? then 1 else 0
  }

  predicate Ended(out: Frames) {
    out.Sent? && (out.frame.Finish? || out.frame.Done? || Ended(out.earlier))
  }

  datatype Block = Closed | Open(id: string) | Broken

  function NextBlock(b: Block, starts: bool, continues: bool, ends: bool, id: string): Block {
    if starts then (if b.Closed? then Open(id) else Broken)
    else if continues then (if b.Open? then b else Broken)
    else if ends then (if b == Open(id) then Closed else Broken)
    else b
  }

  /** Text blocks: start and end alternate with one id, deltas come only in between. */
  function TextBlock(out: Frames): Block {
    match out
    case Nothing => Closed
    case Sent(earlier, f) =>
      NextBlock(TextBlock(earlier), f.TextStart?, f.TextDelta?, f.TextEnd?,
        if f.TextStart? || f.TextEnd? then f.id else "")
  }

  function ReasoningBlock(out: Frames): Block {
    match out
    case Nothing => Closed
    case Sent(earlier, f) =>
      NextBlock(ReasoningBlock(earlier), f.ReasoningStart?, f.ReasoningDelta?, f.ReasoningEnd?,
        if f.ReasoningStart? || f.ReasoningEnd? then f.id else "")
  }

  /** How many inputs of one call id are open; `None` once one was fed or ended without being open. */
  function OpenInputs(out: Frames, id: string): Option<nat> {
    match out
    case Nothing => Some(0)
    case Sent(earlier, f) => NextInputs(OpenInputs(earlier, id), f, id)
  }

  function NextInputs(open: Option<nat>, f: Frame, id: string): Option<nat> {
    if open.None? then None
    else if f.ToolInputStart? && f.id == id then Some(open.value + 1)
    else if f.ToolInputDelta? && f.id == id then (if open.value > 0 then open else None)
    else if f.ToolInputEnd? && f.id == id then (if open.value > 0 then Some(open.value - 1) else None)
    else open
  }

  /** A tool input's end and the call of that tool come as one pair: neither without the other. */
  predicate EndsAreCalls(out: Frames) {
    match out
    case Nothing => true
    case Sent(earlier, f) =>
      && EndsAreCalls(earlier)
      && (f.ToolCall? <==> (earlier.Sent? && earlier.frame.ToolInputEnd?))
      && (f.ToolCall? ==> earlier.frame.id == f.id)
  }

  predicate EndPending(out: Frames) { out.Sent? && out.frame.ToolInputEnd? }

  // ---- The invariant of a translation still going on --------------------------------------------

  ghost predicate FramedSoFar(out: Frames, metadataSent: bool, sawToolCall: bool) {
    && !Ended(out)
    && MetadataCount(out) == (if metadataSent then 1 else 0)
    && (sawToolCall <==> CalledTool(out))
    && EndsAreCalls(out) && !EndPending(out)
  }

  ghost predicate Framed(s: State) { FramedSoFar(s.out, s.metadataSent, s.sawToolCall) }

  ghost predicate Going(s: State) { !s.finished && Framed(s) }

  /** The stream is complete: nothing is left open that the translator knows of. */
  ghost predicate Over(s: State) {
    && s.finished
    && s.out.Sent? && s.out.frame == Done
    && s.out.earlier.Sent? && s.out.earlier.frame.Finish?
    && !Ended(s.out.earlier.earlier)
    && MetadataCount(s.out) == 1
    && EndsAreCalls(s.out)
    && (s.out.earlier.frame.unified == "stop" ==> !CalledTool(s.out))
    && (s.out.earlier.frame.unified == "tool-calls" ==> CalledTool(s.out))
    && s.tools == NoTools && !Truthy(s.textId) && !Truthy(s.reasoningId)
  }

  predicate Plain(f: Frame) {
    !f.ResponseMetadata? && !f.ToolInputEnd? && !f.ToolCall? && !f.Finish? && !f.Done?
  }

  lemma {:induction false} EmitPlain(s: State, f: Frame)
    requires Framed(s) && Plain(f)
    ensures Framed(Emit(s, f))
  {
  }

  lemma {:induction false} CallKeepsFramed(s: State, tool: Tool)
    requires Framed(s)
    ensures Framed(CallTool(s, tool)) && CallTool(s, tool).sawToolCall
  {
    var t := if tool.started then s else Emit(s, ToolInputStart(tool.callId, tool.name));
    assert Framed(t);
    var u := Emit(t, ToolInputEnd(tool.callId));
    assert EndsAreCalls(u.out) && MetadataCount(u.out) == MetadataCount(t.out) && !Ended(u.out);
    var v := Emit(u, ToolCall(tool.callId, tool.name, tool.arguments));
    assert EndsAreCalls(v.out) && MetadataCount(v.out) == MetadataCount(t.out) && !Ended(v.out) && CalledTool(v.out);
  }

  lemma {:induction false} CloseKeepsFramed(s: State)
    requires Framed(s)
    ensures Framed(CloseOpenTools(s)) && CloseOpenTools(s).tools == NoTools
    ensures CloseOpenTools(s) ==
      s.(tools := NoTools, out := CloseOpenTools(s).out, sawToolCall := CloseOpenTools(s).sawToolCall)
    decreases s.tools
  {
    if s.tools.Entry? {
      CallKeepsFramed(s, s.tools.tool);
      CloseKeepsFramed(CallTool(s, s.tools.tool).(tools := s.tools.rest));
    }
  }

  lemma {:induction false} FinishEndsIt(s: State, unified: string, raw: string)
    requires Going(s) && unified in {"stop", "length", "other", "error"}
    ensures Over(FinishWith(s, unified, raw))
  {
    var a := EmitMetadata(s.(finished := true));
    assert Framed(a) && a.metadataSent;
    var b := EndReasoning(a);
    assert Framed(b) && b.metadataSent && !Truthy(b.reasoningId);
    var c := EndText(b);
    assert Framed(c) && c.metadataSent && !Truthy(c.textId) && !Truthy(c.reasoningId);
    CloseKeepsFramed(c);
    var t := CloseOpenTools(c);
    LastFrames(t, FinishReason(t.sawToolCall, unified), raw);
  }

  lemma {:induction false} LastFrames(t: State, unified: string, raw: string)
    requires Framed(t)
    ensures var out := Sent(Sent(t.out, Finish(unified, raw)), Done);
      MetadataCount(out) == MetadataCount(t.out) && EndsAreCalls(out) && (CalledTool(out) <==> CalledTool(t.out))
  {
    var mid := Sent(t.out, Finish(unified, raw));
    assert MetadataCount(mid) == MetadataCount(t.out) && EndsAreCalls(mid) && (CalledTool(mid) <==> CalledTool(t.out));
  }

  lemma {:induction false} StartsKeepFramed(s: State, id: string, f: Frame)
    requires Framed(s) && Plain(f)
    ensures Framed(Emit(s, f)) && Framed(StartText(s, id)) && Framed(StartReasoning(s, id)) && Framed(EndText(s)) &&
      Framed(EndReasoning(s))
    ensures Framed(Emit(StartText(s, id), f)) && Framed(Emit(StartReasoning(s, id), f))
  {
    hide FramedSoFar;
    EmitPlain(s, f);
    EmitPlain(s, TextStart(id));
    EmitPlain(s, ReasoningStart(id));
    if Truthy(s.textId) { EmitPlain(s, TextEnd(s.textId.value)); }
    if Truthy(s.reasoningId) { EmitPlain(s, ReasoningEnd(s.reasoningId.value)); }
    EmitPlain(StartText(s, id), f);
    EmitPlain(StartReasoning(s, id), f);
  }

  lemma {:induction false} HandleStep(s: State, e: Event)
    requires Going(s)
    ensures Going(Handle(s, e)) || Over(Handle(s, e))
  {
    hide FinishWith, Over, FramedSoFar;
    match e
    case Terminator => FinishEndsIt(s, "stop", "stop");
    case Completed(model) => FinishEndsIt(RememberModel(s, model), "stop", "completed");
    case Incomplete(model, reason) =>
      FinishEndsIt(RememberModel(s, model), if reason == Some("max_output_tokens") then "length" else "other",
        Or(reason, "incomplete"));
    case Failed(model, message, code, kind) =>
      var error := ErrorFrame(Or(OrElse(code, kind), "provider_error"), Or(message, "upstream failed"));
      EmitPlain(RememberModel(s, model), error);
      FinishEndsIt(Emit(RememberModel(s, model), error), "error", "failed");
    case Ignored =>
    case Created(model) => MetadataStep(RememberModel(s, model));
    case ItemAdded(added) => if added.Some? { AddedStep(s, added.value); }
    case TextPart(itemId, delta) =>
      if Truthy(delta) {
        var id := Or(OrElse(itemId, s.textId), "txt");
        StartsKeepFramed(s, id, TextDelta(id, delta.value));
      }
    case ReasoningPart(itemId, delta) =>
      if Truthy(delta) {
        var id := Or(OrElse(itemId, s.reasoningId), "rs");
        StartsKeepFramed(s, id, ReasoningDelta(id, delta.value));
      }
    case ArgumentsPart(itemId, delta) => ArgumentsStep(s, Or(itemId, ""), Or(delta, ""));
    case ItemDone(itemId, item) => DoneStep(s, itemId, item);
  }

  lemma {:induction false} MetadataStep(s: State)
    requires Going(s)
    ensures Going(EmitMetadata(s))
  {
  }

  lemma {:induction false} AddedStep(s: State, item: AddedItem)
    requires Going(s)
    ensures Going(HandleAdded(s, item))
  {
    hide FramedSoFar;
    var itemId := Or(item.id, "");
    StartsKeepFramed(s, NonEmptyOr(itemId, "txt"), ToolInputStart(Or(item.callId, itemId), Or(item.name, "unknown")));
    StartsKeepFramed(s, NonEmptyOr(itemId, "rs"), ToolInputStart(Or(item.callId, itemId), Or(item.name, "unknown")));
  }

  lemma {:induction false} DoneStep(s: State, itemId: Option<string>, item: Option<DoneItem>)
    requires Going(s)
    ensures Going(HandleDone(s, itemId, item))
  {
    hide FramedSoFar;
    var known := Get(s.tools, Or(OrElse(itemId, if item.Some? then item.value.id else None), ""));
    if known.Some? {
      var tool :=
        if item.Some? && Truthy(item.value.arguments) then known.value.(arguments := item.value.arguments.value)
        else known.value;
      CallKeepsFramed(s, tool);
      CallLeavesBlocks(s, tool);
    } else {
      StartsKeepFramed(s, "", TextStart(""));
    }
  }

  lemma {:induction false} ArgumentsStep(s: State, itemId: string, delta: string)
    requires Going(s)
    ensures Going(HandleArguments(s, itemId, delta))
  {
    hide FramedSoFar;
    var known := Get(s.tools, itemId);
    var tool := if known.Some? then known.value else Tool(NonEmptyOr(itemId, "call"), "unknown", "", false);
    EmitPlain(s, ToolInputStart(tool.callId, tool.name));
    var t := if tool.started then s else Emit(s, ToolInputStart(tool.callId, tool.name));
    EmitPlain(t, ToolInputDelta(tool.callId, delta));
  }

  lemma {:induction false} ConsumeStep(events: Events)
    ensures Going(Consume(events)) || Over(Consume(events))
  {
    if events.Read? {
      ConsumeStep(events.before);
      if !Consume(events.before).finished {
        HandleStep(Consume(events.before), events.event);
      }
    }
  }

  /**
   * Whatever the upstream sends: one metadata frame; one finish, then the end marker, and nothing after;
   * every tool input's end directly followed by its call; and "stop" only if no tool was called.
   */
  lemma {:induction false} EveryStreamIsFramed(events: Events)
    ensures Over(Translate(events))
  {
    ConsumeStep(events);
    if !Consume(events).finished {
      FinishEndsIt(Consume(events), "other", "adapter_eof");
    }
  }

  // ---- Text and reasoning blocks: well bracketed exactly when no block is opened with an empty id -----

  /** A text delta that opens a block under an empty id, which the translator then takes for no block at all. */
  predicate OpensBlankText(s: State, e: Event) {
    e.TextPart? && Truthy(e.delta) && e.itemId == Some("") && !Truthy(s.textId)
  }

  predicate OpensBlankReasoning(s: State, e: Event) {
    e.ReasoningPart? && Truthy(e.delta) && e.itemId == Some("") && !Truthy(s.reasoningId)
  }

  /** Some event, reached before the stream was finished, opened a text block under an empty id. */
  predicate BlankText(events: Events) {
    events.Read? && (BlankText(events.before) ||
      (!Consume(events.before).finished && OpensBlankText(Consume(events.before), events.event)))
  }

  predicate BlankReasoning(events: Events) {
    events.Read? && (BlankReasoning(events.before) ||
      (!Consume(events.before).finished && OpensBlankReasoning(Consume(events.before), events.event)))
  }

  ghost predicate TextInStep(s: State) {
    s.textId != Some("") && TextBlock(s.out) == if Truthy(s.textId) then Open(s.textId.value) else Closed
  }

  ghost predicate TextAstray(s: State) {
    TextBlock(s.out) == Broken || (TextBlock(s.out) == Open("") && s.textId == Some(""))
  }

  ghost predicate ReasoningInStep(s: State) {
    s.reasoningId != Some("") && ReasoningBlock(s.out) ==
      if Truthy(s.reasoningId) then Open(s.reasoningId.value) else Closed
  }

  ghost predicate ReasoningAstray(s: State) {
    ReasoningBlock(s.out) == Broken || (ReasoningBlock(s.out) == Open("") && s.reasoningId == Some(""))
  }

  /** Tool frames touch neither kind of block. */
  lemma {:induction false} CallLeavesBlocks(s: State, tool: Tool)
    ensures TextBlock(CallTool(s, tool).out) == TextBlock(s.out) &&
      ReasoningBlock(CallTool(s, tool).out) == ReasoningBlock(s.out)
    ensures CallTool(s, tool).textId == s.textId && CallTool(s, tool).reasoningId == s.reasoningId
    ensures CallTool(s, tool).finished == s.finished
  {
    var t := if tool.started then s else Emit(s, ToolInputStart(tool.callId, tool.name));
    assert TextBlock(t.out) == TextBlock(s.out) && ReasoningBlock(t.out) == ReasoningBlock(s.out);
    var u := Emit(t, ToolInputEnd(tool.callId));
    assert TextBlock(u.out) == TextBlock(s.out) && ReasoningBlock(u.out) == ReasoningBlock(s.out);
  }

  lemma {:induction false} CloseLeavesBlocks(s: State)
    ensures TextBlock(CloseOpenTools(s).out) == TextBlock(s.out) &&
      ReasoningBlock(CloseOpenTools(s).out) == ReasoningBlock(s.out)
    decreases s.tools
  {
    if s.tools.Entry? {
      CallLeavesBlocks(s, s.tools.tool);
      CloseLeavesBlocks(CallTool(s, s.tools.tool).(tools := s.tools.rest));
    }
  }

  lemma {:induction false} ArgumentsLeaveBlocks(s: State, itemId: string, delta: string)
    ensures var t := HandleArguments(s, itemId, delta);
      TextBlock(t.out) == TextBlock(s.out) && ReasoningBlock(t.out) == ReasoningBlock(s.out) && t.textId == s.textId &&
        t.reasoningId == s.reasoningId && t.finished == s.finished
  {
    var known := Get(s.tools, itemId);
    var tool := if known.Some? then known.value else Tool(NonEmptyOr(itemId, "call"), "unknown", "", false);
    var t := if tool.started then s else Emit(s, ToolInputStart(tool.callId, tool.name));
    assert TextBlock(t.out) == TextBlock(s.out) && ReasoningBlock(t.out) == ReasoningBlock(s.out);
  }

  /** Finishing closes a block it knows about and cannot repair a stream that went astray. */
  lemma {:induction false} FinishSettlesBlocks(s: State, unified: string, raw: string)
    requires !s.finished
    ensures TextInStep(s) ==> TextBlock(FinishWith(s, unified, raw).out) == Closed
    ensures TextAstray(s) ==> TextBlock(FinishWith(s, unified, raw).out) != Closed
    ensures ReasoningInStep(s) ==> ReasoningBlock(FinishWith(s, unified, raw).out) == Closed
    ensures ReasoningAstray(s) ==> ReasoningBlock(FinishWith(s, unified, raw).out) != Closed
  {
    hide CloseOpenTools;
    var a := EmitMetadata(s.(finished := true));
    assert TextBlock(a.out) == TextBlock(s.out) && ReasoningBlock(a.out) == ReasoningBlock(s.out);
    var b := EndReasoning(a);
    var c := EndText(b);
    EndingsSettle(a);
    CloseLeavesBlocks(c);
    LastFramesLeaveBlocks(CloseOpenTools(c), unified, raw);
  }

  lemma {:induction false} EndingsSettle(a: State)
    ensures var t := EndText(EndReasoning(a));
      && (TextInStep(a) ==> TextBlock(t.out) == Closed) && (TextAstray(a) ==> TextBlock(t.out) != Closed)
      && (ReasoningInStep(a) ==> ReasoningBlock(t.out) == Closed)
      && (ReasoningAstray(a) ==> ReasoningBlock(t.out) != Closed)
  {
    var b := EndReasoning(a);
    assert TextBlock(b.out) == TextBlock(a.out);
    assert ReasoningBlock(EndText(b).out) == ReasoningBlock(b.out);
  }

  lemma {:induction false} LastFramesLeaveBlocks(t: State, unified: string, raw: string)
    ensures var last := Emit(Emit(t, Finish(FinishReason(t.sawToolCall, unified), raw)), Done);
      TextBlock(last.out) == TextBlock(t.out) && ReasoningBlock(last.out) == ReasoningBlock(t.out)
  {
    var u := Emit(t, Finish(FinishReason(t.sawToolCall, unified), raw));
    assert TextBlock(u.out) == TextBlock(t.out) && ReasoningBlock(u.out) == ReasoningBlock(t.out);
  }

  /** What one event does to the text block: it stays in step unless it opens a blank block, and astray is for good. */
  ghost predicate TextFollows(s: State, e: Event, t: State) {
    && (TextInStep(s) && !OpensBlankText(s, e) ==> if t.finished then TextBlock(t.out) == Closed else TextInStep(t))
    && (TextAstray(s) || (TextInStep(s) && OpensBlankText(s, e)) ==>
      if t.finished then TextBlock(t.out) != Closed else TextAstray(t))
  }

  ghost predicate ReasoningFollows(s: State, e: Event, t: State) {
    && (ReasoningInStep(s) && !OpensBlankReasoning(s, e) ==>
      if t.finished then ReasoningBlock(t.out) == Closed else ReasoningInStep(t))
    && (ReasoningAstray(s) || (ReasoningInStep(s) && OpensBlankReasoning(s, e)) ==>
      if t.finished then ReasoningBlock(t.out) != Closed else ReasoningAstray(t))
  }

  lemma {:induction false} QuietFollows(s: State, e: Event, t: State)
    requires !s.finished && !t.finished && !e.TextPart? && !e.ReasoningPart?
    requires TextBlock(t.out) == TextBlock(s.out) && ReasoningBlock(t.out) == ReasoningBlock(s.out)
    requires t.textId == s.textId && t.reasoningId == s.reasoningId
    ensures TextFollows(s, e, t) && ReasoningFollows(s, e, t)
  {
  }

  lemma {:induction false} FinishFollows(s: State, e: Event, early: State, unified: string, raw: string)
    requires !s.finished && !early.finished && !e.TextPart? && !e.ReasoningPart?
    requires TextBlock(early.out) == TextBlock(s.out) && ReasoningBlock(early.out) == ReasoningBlock(s.out)
    requires early.textId == s.textId && early.reasoningId == s.reasoningId
    ensures TextFollows(s, e, FinishWith(early, unified, raw)) &&
      ReasoningFollows(s, e, FinishWith(early, unified, raw))
  {
    FinishSettlesBlocks(early, unified, raw);
    FinishSets(early, unified, raw);
  }

  lemma {:induction false} FinishSets(s: State, unified: string, raw: string)
    ensures FinishWith(s, unified, raw).finished
  {
    CloseKeepsFlags(EndText(EndReasoning(EmitMetadata(s.(finished := true)))));
  }

  lemma {:induction false} CloseKeepsFlags(s: State)
    ensures CloseOpenTools(s).finished == s.finished
    decreases s.tools
  {
    if s.tools.Entry? {
      CallLeavesBlocks(s, s.tools.tool);
      CloseKeepsFlags(CallTool(s, s.tools.tool).(tools := s.tools.rest));
    }
  }

  lemma {:induction false} BlocksFollow(s: State, e: Event)
    requires !s.finished
    ensures TextFollows(s, e, Handle(s, e)) && ReasoningFollows(s, e, Handle(s, e))
  {
    hide TextFollows, ReasoningFollows, FinishWith;
    match e
    case Terminator => FinishFollows(s, e, s, "stop", "stop");
    case Completed(model) => FinishFollows(s, e, RememberModel(s, model), "stop", "completed");
    case Incomplete(model, reason) =>
      FinishFollows(s, e, RememberModel(s, model), if reason == Some("max_output_tokens") then "length" else "other",
        Or(reason, "incomplete"));
    case Failed(model, message, code, kind) =>
      var error := ErrorFrame(Or(OrElse(code, kind), "provider_error"), Or(message, "upstream failed"));
      FinishFollows(s, e, Emit(RememberModel(s, model), error), "error", "failed");
    case Ignored => QuietFollows(s, e, s);
    case Created(_) => QuietFollows(s, e, Handle(s, e));
    case ItemAdded(added) => if added.Some? { AddedFollows(s, added.value); } else { QuietFollows(s, e, s); }
    case TextPart(itemId, delta) => TextPartFollows(s, itemId, delta);
    case ReasoningPart(itemId, delta) => ReasoningPartFollows(s, itemId, delta);
    case ArgumentsPart(itemId, delta) =>
      ArgumentsLeaveBlocks(s, Or(itemId, ""), Or(delta, ""));
      QuietFollows(s, e, Handle(s, e));
    case ItemDone(itemId, item) => DoneFollows(s, itemId, item);
  }

  lemma {:induction false} DoneFollows(s: State, itemId: Option<string>, item: Option<DoneItem>)
    requires !s.finished
    ensures TextFollows(s, ItemDone(itemId, item), HandleDone(s, itemId, item)) &&
      ReasoningFollows(s, ItemDone(itemId, item), HandleDone(s, itemId, item))
  {
    var known := Get(s.tools, Or(OrElse(itemId, if item.Some? then item.value.id else None), ""));
    if known.Some? {
      CallLeavesBlocks(s,
        if item.Some? && Truthy(item.value.arguments) then known.value.(arguments := item.value.arguments.value)
        else known.value);
      QuietFollows(s, ItemDone(itemId, item), HandleDone(s, itemId, item));
    }
  }

  lemma {:induction false} AddedFollows(s: State, item: AddedItem)
    requires !s.finished
    ensures TextFollows(s, ItemAdded(Some(item)), HandleAdded(s, item)) &&
      ReasoningFollows(s, ItemAdded(Some(item)), HandleAdded(s, item))
  {
    var itemId := Or(item.id, "");
    match item.kind
    case Message => MessageFollows(s, item, NonEmptyOr(itemId, "txt"));
    case Reasoning => ThoughtFollows(s, item, NonEmptyOr(itemId, "rs"));
    case FunctionCall =>
      hide TextFollows, ReasoningFollows, Put;
      QuietFollows(s, ItemAdded(Some(item)), HandleAdded(s, item));
    case OtherKind =>
      hide TextFollows, ReasoningFollows;
      QuietFollows(s, ItemAdded(Some(item)), s);
  }

  lemma {:induction false} MessageFollows(s: State, item: AddedItem, id: string)
    requires !s.finished && id != ""
    ensures TextFollows(s, ItemAdded(Some(item)), StartText(s, id)) &&
      ReasoningFollows(s, ItemAdded(Some(item)), StartText(s, id))
  {
  }

  lemma {:induction false} ThoughtFollows(s: State, item: AddedItem, id: string)
    requires !s.finished && id != ""
    ensures TextFollows(s, ItemAdded(Some(item)), StartReasoning(s, id)) &&
      ReasoningFollows(s, ItemAdded(Some(item)), StartReasoning(s, id))
  {
  }

  lemma {:induction false} TextPartFollows(s: State, itemId: Option<string>, delta: Option<string>)
    requires !s.finished
    ensures TextFollows(s, TextPart(itemId, delta), Handle(s, TextPart(itemId, delta)))
    ensures ReasoningFollows(s, TextPart(itemId, delta), Handle(s, TextPart(itemId, delta)))
  {
    var t := StartText(s, Or(OrElse(itemId, s.textId), "txt"));
    assert TextBlock(t.out) ==
      if Truthy(s.textId) then TextBlock(s.out) else NextBlock(TextBlock(s.out), true, false, false, t.textId.value);
    assert ReasoningBlock(t.out) == ReasoningBlock(s.out);
  }

  lemma {:induction false} ReasoningPartFollows(s: State, itemId: Option<string>, delta: Option<string>)
    requires !s.finished
    ensures TextFollows(s, ReasoningPart(itemId, delta), Handle(s, ReasoningPart(itemId, delta)))
    ensures ReasoningFollows(s, ReasoningPart(itemId, delta), Handle(s, ReasoningPart(itemId, delta)))
  {
    var t := StartReasoning(s, Or(OrElse(itemId, s.reasoningId), "rs"));
    assert ReasoningBlock(t.out) ==
      if Truthy(s.reasoningId) then ReasoningBlock(s.out)
      else NextBlock(ReasoningBlock(s.out), true, false, false, t.reasoningId.value);
    assert TextBlock(t.out) == TextBlock(s.out);
  }

  lemma {:induction false} BlocksSoFar(events: Events)
    ensures var s := Consume(events);
      && (!BlankText(events) ==> if s.finished then TextBlock(s.out) == Closed else TextInStep(s))
      && (BlankText(events) ==> if s.finished then TextBlock(s.out) != Closed else TextAstray(s))
      && (!BlankReasoning(events) ==> if s.finished then ReasoningBlock(s.out) == Closed else ReasoningInStep(s))
      && (BlankReasoning(events) ==> if s.finished then ReasoningBlock(s.out) != Closed else ReasoningAstray(s))
  {
    if events.Read? {
      BlocksSoFar(events.before);
      var s := Consume(events.before);
      if !s.finished {
        hide TextInStep, TextAstray, ReasoningInStep, ReasoningAstray, Handle, OpensBlankText, OpensBlankReasoning;
        BlocksFollow(s, events.event);
      }
    }
  }

  /**
   * Text starts and ends alternate, deltas come only in between, and everything is closed at the end,
   * exactly when no text delta opened a block under an empty id; and likewise for reasoning.
   */
  lemma {:induction false} BracketedIffNoBlankBlock(events: Events)
    ensures TextBlock(Translate(events).out) == Closed <==> !BlankText(events)
    ensures ReasoningBlock(Translate(events).out) == Closed <==> !BlankReasoning(events)
  {
    BlocksSoFar(events);
    if !Consume(events).finished {
      FinishSettlesBlocks(Consume(events), "other", "adapter_eof");
    }
  }

  /** The failing case in full: one text delta whose item id is the empty string leaves its block open for ever. */
  lemma {:induction false} EmptyItemIdLeavesTextOpen()
    ensures TextBlock(Translate(Read(NoEvents, TextPart(Some(""), Some("hi")))).out) != Closed
  {
    var events := Read(NoEvents, TextPart(Some(""), Some("hi")));
    assert Consume(NoEvents) == Initial;
    assert BlankText(events);
    BracketedIffNoBlankBlock(events);
  }

  // ---- Tool inputs: left open exactly when their key is taken over --------------------------------

  /** How many tools in the table have this call id. */
  function Held(tools: Tools, id: string): nat {
    match tools
    case NoTools => 0
    case Entry(_, tool, rest) => One(tool.callId, id) + Held(rest, id)
  }

  function One(a: string, b: string): nat { if a == b then 1 else 0 }

  predicate AllStarted(tools: Tools) {
    tools.NoTools? || (tools.tool.started && AllStarted(tools.rest))
  }

  /** The table key under which this event puts a new tool. */
  function NewKey(s: State, e: Event): Option<string> {
    if e.ItemAdded? && e.added.Some? && e.added.value.kind == FunctionCall then
      Some(NonEmptyOr(Or(e.added.value.id, ""), Or(e.added.value.callId, Or(e.added.value.id, ""))))
    else if e.ArgumentsPart? && Get(s.tools, Or(e.itemId, "")).None? then
      Some(NonEmptyOr(Or(e.itemId, ""), "call"))
    else None
  }

  /** The open tool that this event pushes out of the table by reusing its key. */
  function Displaced(s: State, e: Event): Option<Tool> {
    if NewKey(s, e).Some? then Get(s.tools, NewKey(s, e).value) else None
  }

  function DisplacedId(s: State, e: Event, id: string): nat {
    if Displaced(s, e).Some? then One(Displaced(s, e).value.callId, id) else 0
  }

  /** How often a tool with this call id was pushed out while the stream was still going on. */
  function Orphans(events: Events, id: string): nat {
    match events
    case NoEvents => 0
    case Read(before, e) =>
      Orphans(before, id) + if Consume(before).finished then 0 else DisplacedId(Consume(before), e, id)
  }

  lemma {:induction false} PutHolds(tools: Tools, key: string, tool: Tool, id: string)
    requires AllStarted(tools) && tool.started
    ensures AllStarted(Put(tools, key, tool))
    ensures Held(Put(tools, key, tool), id) +
      (if Get(tools, key).Some? then One(Get(tools, key).value.callId, id) else 0) ==
        Held(tools, id) + One(tool.callId, id)
    ensures Held(Put(tools, key, tool), tool.callId) > 0
    ensures Get(tools, key).Some? ==> Get(tools, key).value.started
  {
    if tools.Entry? && tools.key != key {
      PutHolds(tools.rest, key, tool, id);
    }
  }

  lemma {:induction false} DropHolds(tools: Tools, key: string, id: string)
    requires AllStarted(tools) && Get(tools, key).Some?
    ensures AllStarted(Drop(tools, key)) && Get(tools, key).value.started
    ensures Held(Drop(tools, key), id) + One(Get(tools, key).value.callId, id) == Held(tools, id)
  {
    if tools.key != key {
      DropHolds(tools.rest, key, id);
    }
  }

  /** The inputs still open are those of the tools in the table plus the orphans. */
  ghost predicate InputsAre(s: State, id: string, orphans: nat) {
    AllStarted(s.tools) && OpenInputs(s.out, id) == Some(Held(s.tools, id) + orphans)
  }

  lemma {:induction false} CallClosesInput(s: State, tool: Tool, id: string, open: nat)
    requires tool.started && OpenInputs(s.out, id) == Some(open + One(tool.callId, id))
    ensures OpenInputs(CallTool(s, tool).out, id) == Some(open)
  {
    var u := Emit(s, ToolInputEnd(tool.callId));
    assert OpenInputs(u.out, id) == Some(open);
  }

  lemma {:induction false} CloseClosesInputs(s: State, id: string, orphans: nat)
    requires InputsAre(s, id, orphans)
    ensures OpenInputs(CloseOpenTools(s).out, id) == Some(orphans)
    decreases s.tools
  {
    if s.tools.Entry? {
      var tool, rest := s.tools.tool, s.tools.rest;
      CallClosesInput(s, tool, id, Held(rest, id) + orphans);
      CloseClosesInputs(CallTool(s, tool).(tools := rest), id, orphans);
    }
  }

  lemma {:induction false} FinishClosesInputs(s: State, id: string, orphans: nat, unified: string, raw: string)
    requires !s.finished && InputsAre(s, id, orphans)
    ensures FinishWith(s, unified, raw).finished && OpenInputs(FinishWith(s, unified, raw).out, id) == Some(orphans)
  {
    var a := EmitMetadata(s.(finished := true));
    assert OpenInputs(a.out, id) == OpenInputs(s.out, id);
    var b := EndReasoning(a);
    assert OpenInputs(b.out, id) == OpenInputs(s.out, id);
    var c := EndText(b);
    assert OpenInputs(c.out, id) == OpenInputs(s.out, id);
    CloseClosesInputs(c, id, orphans);
    FinishSets(s, unified, raw);
    LastFramesKeepInputs(CloseOpenTools(c), id, unified, raw);
  }

  lemma {:induction false} LastFramesKeepInputs(t: State, id: string, unified: string, raw: string)
    ensures OpenInputs(Emit(Emit(t, Finish(FinishReason(t.sawToolCall, unified), raw)), Done).out, id) ==
      OpenInputs(t.out, id)
  {
    var u := Emit(t, Finish(FinishReason(t.sawToolCall, unified), raw));
    assert OpenInputs(u.out, id) == OpenInputs(t.out, id);
  }

  ghost predicate InputsNow(s: State, id: string, orphans: nat) {
    if s.finished then OpenInputs(s.out, id) == Some(orphans) else InputsAre(s, id, orphans)
  }

  ghost predicate InputsFollow(s: State, e: Event, t: State, id: string, orphans: nat) {
    InputsNow(t, id, orphans + DisplacedId(s, e, id))
  }

  lemma {:induction false} QuietInputs(s: State, e: Event, t: State, id: string, orphans: nat)
    requires InputsAre(s, id, orphans) && !t.finished && t.tools == s.tools &&
      OpenInputs(t.out, id) == OpenInputs(s.out, id)
    requires NewKey(s, e).None?
    ensures InputsFollow(s, e, t, id, orphans)
  {
  }

  lemma {:induction false} FinishInputs(s: State, e: Event, early: State, id: string, orphans: nat, unified: string,
      raw: string)
    requires InputsAre(s, id, orphans) && !early.finished && early.tools == s.tools &&
      OpenInputs(early.out, id) == OpenInputs(s.out, id)
    requires NewKey(s, e).None?
    ensures InputsFollow(s, e, FinishWith(early, unified, raw), id, orphans)
  {
    FinishClosesInputs(early, id, orphans, unified, raw);
  }

  lemma {:induction false} EveryEventKeepsInputs(s: State, e: Event, id: string, orphans: nat)
    requires !s.finished && InputsAre(s, id, orphans)
    ensures InputsFollow(s, e, Handle(s, e), id, orphans)
  {
    hide InputsAre, InputsFollow, FinishWith;
    match e
    case Terminator => FinishInputs(s, e, s, id, orphans, "stop", "stop");
    case Completed(model) => FinishInputs(s, e, RememberModel(s, model), id, orphans, "stop", "completed");
    case Incomplete(model, reason) =>
      FinishInputs(s, e, RememberModel(s, model), id, orphans,
        if reason == Some("max_output_tokens") then "length" else "other", Or(reason, "incomplete"));
    case Failed(model, message, code, kind) =>
      var error := ErrorFrame(Or(OrElse(code, kind), "provider_error"), Or(message, "upstream failed"));
      FinishInputs(s, e, Emit(RememberModel(s, model), error), id, orphans, "error", "failed");
    case Ignored => QuietInputs(s, e, s, id, orphans);
    case Created(_) => QuietInputs(s, e, Handle(s, e), id, orphans);
    case TextPart(itemId, delta) =>
      assert OpenInputs(StartText(s, Or(OrElse(itemId, s.textId), "txt")).out, id) == OpenInputs(s.out, id);
      QuietInputs(s, e, Handle(s, e), id, orphans);
    case ReasoningPart(itemId, delta) =>
      assert OpenInputs(StartReasoning(s, Or(OrElse(itemId, s.reasoningId), "rs")).out, id) == OpenInputs(s.out, id);
      QuietInputs(s, e, Handle(s, e), id, orphans);
    case ItemAdded(added) => AddedInputs(s, added, id, orphans);
    case ArgumentsPart(itemId, delta) => ArgumentsInputs(s, itemId, delta, id, orphans);
    case ItemDone(itemId, item) => DoneInputs(s, itemId, item, id, orphans);
  }

  lemma {:induction false} AddedInputs(s: State, added: Option<AddedItem>, id: string, orphans: nat)
    requires !s.finished && InputsAre(s, id, orphans)
    ensures InputsFollow(s, ItemAdded(added), Handle(s, ItemAdded(added)), id, orphans)
  {
    if added.Some? && added.value.kind == FunctionCall {
      var itemId := Or(added.value.id, "");
      var callId := Or(added.value.callId, itemId);
      PutHolds(s.tools, NonEmptyOr(itemId, callId), Tool(callId, Or(added.value.name, "unknown"), "", true), id);
    } else {
      QuietInputs(s, ItemAdded(added), Handle(s, ItemAdded(added)), id, orphans);
    }
  }

  lemma {:induction false} ArgumentsInputs(s: State, itemId: Option<string>, delta: Option<string>, id: string,
      orphans: nat)
    requires !s.finished && InputsAre(s, id, orphans)
    ensures InputsFollow(s, ArgumentsPart(itemId, delta), Handle(s, ArgumentsPart(itemId, delta)), id, orphans)
  {
    var e := ArgumentsPart(itemId, delta);
    var item, more := Or(itemId, ""), Or(delta, "");
    var known := Get(s.tools, item);
    var key := if known.Some? then item else NonEmptyOr(item, "call");
    var tool := if known.Some? then known.value else Tool(NonEmptyOr(item, "call"), "unknown", "", false);
    var fed := tool.(started := true, arguments := tool.arguments + more);
    PutHolds(s.tools, key, fed, id);
    FeedInputs(s, key, tool, more, id, orphans + DisplacedId(s, e, id));
  }

  lemma {:induction false} FeedInputs(s: State, key: string, tool: Tool, more: string, id: string, orphans: nat)
    requires AllStarted(Put(s.tools, key, tool.(started := true, arguments := tool.arguments + more)))
    requires Held(Put(s.tools, key, tool.(started := true, arguments := tool.arguments + more)), tool.callId) > 0
    requires OpenInputs(s.out, id).Some?
    requires OpenInputs(s.out, id).value + (if tool.started then 0 else One(tool.callId, id)) ==
      Held(Put(s.tools, key, tool.(started := true, arguments := tool.arguments + more)), id) + orphans
    ensures var t := if tool.started then s else Emit(s, ToolInputStart(tool.callId, tool.name));
      var u := t.(tools := Put(s.tools, key, tool.(started := true, arguments := tool.arguments + more)));
      InputsAre(if more != "" then Emit(u, ToolInputDelta(tool.callId, more)) else u, id, orphans)
  {
    hide Put, AllStarted;
    var t := if tool.started then s else Emit(s, ToolInputStart(tool.callId, tool.name));
    assert OpenInputs(t.out, id) ==
      Some(OpenInputs(s.out, id).value + if tool.started then 0 else One(tool.callId, id));
  }

  lemma {:induction false} DoneInputs(s: State, itemId: Option<string>, item: Option<DoneItem>, id: string,
      orphans: nat)
    requires !s.finished && InputsAre(s, id, orphans)
    ensures InputsFollow(s, ItemDone(itemId, item), Handle(s, ItemDone(itemId, item)), id, orphans)
  {
    var key := Or(OrElse(itemId, if item.Some? then item.value.id else None), "");
    var known := Get(s.tools, key);
    if known.Some? {
      var tool :=
        if item.Some? && Truthy(item.value.arguments) then known.value.(arguments := item.value.arguments.value)
        else known.value;
      DropHolds(s.tools, key, id);
      CallClosesInput(s, tool, id, Held(Drop(s.tools, key), id) + orphans);
      CallLeavesBlocks(s, tool);
    } else {
      QuietInputs(s, ItemDone(itemId, item), HandleDone(s, itemId, item), id, orphans);
    }
  }

  lemma {:induction false} InputsAtFirst(id: string)
    ensures InputsNow(Initial, id, 0)
  {
  }

  lemma {:induction false} InputsSoFar(events: Events, id: string)
    ensures InputsNow(Consume(events), id, Orphans(events, id))
  {
    hide InputsNow, Handle, DisplacedId;
    if events.NoEvents? {
      InputsAtFirst(id);
    } else {
      InputsSoFar(events.before, id);
      var s := Consume(events.before);
      if !s.finished {
        StillGoing(s, id, Orphans(events.before, id));
        EveryEventKeepsInputs(s, events.event, id, Orphans(events.before, id));
      }
    }
  }

  lemma {:induction false} StillGoing(s: State, id: string, orphans: nat)
    requires InputsNow(s, id, orphans) && !s.finished
    ensures InputsAre(s, id, orphans)
  {
  }

  /**
   * Tool inputs are fed and ended only while open, and those left open at the end of the stream are
   * exactly the ones whose table key was reused: none stays open if and only if no key was.
   */
  lemma {:induction false} OpenInputsAreOrphans(events: Events, id: string)
    ensures OpenInputs(Translate(events).out, id) == Some(Orphans(events, id))
  {
    InputsSoFar(events, id);
    if !Consume(events).finished {
      FinishClosesInputs(Consume(events), id, Orphans(events, id), "other", "adapter_eof");
    }
  }

  /** The failing case in full: a second call under the item id of the first leaves the first one's input open. */
  lemma {:induction false} ReusedKeyLeavesInputOpen()
    ensures var first := ItemAdded(Some(AddedItem(FunctionCall, Some("fc"), Some("c1"), Some("f"))));
      var second := ItemAdded(Some(AddedItem(FunctionCall, Some("fc"), Some("c2"), Some("f"))));
      OpenInputs(Translate(Read(Read(NoEvents, first), second)).out, "c1") == Some(1)
  {
    var first := ItemAdded(Some(AddedItem(FunctionCall, Some("fc"), Some("c1"), Some("f"))));
    var second := ItemAdded(Some(AddedItem(FunctionCall, Some("fc"), Some("c2"), Some("f"))));
    var events := Read(NoEvents, first);
    var tool := Tool("c1", "f", "", true);
    assert Consume(events).tools == Put(NoTools, "fc", tool) == Entry("fc", tool, NoTools);
    assert Displaced(Consume(events), second) == Some(tool);
    assert Orphans(NoEvents, "c1") == 0 && Displaced(Initial, first) == None;
    assert Orphans(Read(events, second), "c1") == 1;
    OpenInputsAreOrphans(Read(events, second), "c1");
  }
}
