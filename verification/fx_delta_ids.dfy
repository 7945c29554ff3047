/** Which block a delta belongs to: exactly when every delta carries the id of the block that is open. */
module FxDeltaIds {
  import opened Wrappers
  import opened FxFrames
  import opened FxStream

  /** The two kinds of block that take deltas. */
  datatype Lane = TextLane | ReasoningLane

  predicate Starts(lane: Lane, f: Frame) { if lane == TextLane then f.TextStart? else f.ReasoningStart? }

  predicate Continues(lane: Lane, f: Frame) { if lane == TextLane then f.TextDelta? else f.ReasoningDelta? }

  predicate Ends(lane: Lane, f: Frame) { if lane == TextLane then f.TextEnd? else f.ReasoningEnd? }

  /** The id of the block opened last and not ended since, and whether every delta so far carried the id open then. */
  datatype Ids = Ids(open: Option<string>, carried: bool)

  function IdsIn(lane: Lane, out: Frames): Ids {
    match out
    case Nothing => Ids(None, true)
    case Sent(earlier, f) => NextIds(lane, IdsIn(lane, earlier), f)
  }

  function NextIds(lane: Lane, was: Ids, f: Frame): Ids {
    if Starts(lane, f) then was.(open := Some(f.id))
    else if Ends(lane, f) then was.(open := None)
    else if Continues(lane, f) then was.(carried := was.carried && was.open == Some(f.id))
    else was
  }

  function BlockId(lane: Lane, s: State): Option<string> { if lane == TextLane then s.textId else s.reasoningId }

  /** The item id of a delta of this kind, if the event is one. */
  function DeltaItem(lane: Lane, e: Event): Option<string> {
    if lane == TextLane && e.TextPart? && Truthy(e.delta) then e.itemId
    else if lane == ReasoningLane && e.ReasoningPart? && Truthy(e.delta) then e.itemId
    else None
  }

  /** A delta that names another item than the one whose block is open. */
  predicate Strays(lane: Lane, s: State, e: Event) {
    Truthy(BlockId(lane, s)) && DeltaItem(lane, e).Some? && DeltaItem(lane, e) != BlockId(lane, s)
  }

  predicate SomeStray(lane: Lane, events: Events) {
    match events
    case NoEvents => false
    case Read(before, e) => SomeStray(lane, before) || (!Consume(before).finished && Strays(lane, Consume(before), e))
  }

  // ---- One event -----------------------------------------------------------------------------------

  /** The translator's variable names the open block. */
  predicate Knows(lane: Lane, s: State) { Truthy(BlockId(lane, s)) ==> IdsIn(lane, s.out).open == BlockId(lane, s) }

  /** What one event does to a lane. */
  predicate Follows(lane: Lane, s: State, e: Event, t: State) {
    Knows(lane, s) ==>
      IdsIn(lane, t.out).carried == (IdsIn(lane, s.out).carried && !Strays(lane, s, e)) &&
        (!t.finished ==> Knows(lane, t))
  }

  /** Same frames in this lane, same variable. */
  predicate Quiet(lane: Lane, s: State, t: State) {
    IdsIn(lane, t.out) == IdsIn(lane, s.out) && BlockId(lane, t) == BlockId(lane, s)
  }

  lemma {:induction false} QuietFollows(lane: Lane, s: State, e: Event, t: State)
    requires Quiet(lane, s, t) && DeltaItem(lane, e).None?
    ensures Follows(lane, s, e, t)
  {
  }

  /** Frames of no block. */
  lemma {:induction false} AsideFrame(lane: Lane, out: Frames, f: Frame)
    requires !Starts(lane, f) && !Ends(lane, f) && !Continues(lane, f)
    ensures IdsIn(lane, Sent(out, f)) == IdsIn(lane, out)
  {
  }

  lemma {:induction false} CallIsQuiet(lane: Lane, s: State, tool: Tool)
    ensures Quiet(lane, s, CallTool(s, tool)) && CallTool(s, tool).finished == s.finished
  {
    var t := if tool.started then s else Emit(s, ToolInputStart(tool.callId, tool.name));
    var u := Emit(t, ToolInputEnd(tool.callId));
    assert IdsIn(lane, u.out) == IdsIn(lane, t.out) == IdsIn(lane, s.out);
  }

  lemma {:induction false} CloseIsQuiet(lane: Lane, s: State)
    ensures Quiet(lane, s, CloseOpenTools(s)) && CloseOpenTools(s).finished == s.finished
    decreases s.tools
  {
    hide CallTool, IdsIn;
    if s.tools.Entry? {
      CallIsQuiet(lane, s, s.tools.tool);
      CloseIsQuiet(lane, CallTool(s, s.tools.tool).(tools := s.tools.rest));
    }
  }

  lemma {:induction false} ArgumentsAreQuiet(lane: Lane, s: State, itemId: string, delta: string)
    ensures Quiet(lane, s, HandleArguments(s, itemId, delta))
  {
    hide Put, Get;
    var known := Get(s.tools, itemId);
    var tool := if known.Some? then known.value else Tool(NonEmptyOr(itemId, "call"), "unknown", "", false);
    var t := if tool.started then s else Emit(s, ToolInputStart(tool.callId, tool.name));
    AsideFrame(lane, s.out, ToolInputStart(tool.callId, tool.name));
    AsideFrame(lane, t.out, ToolInputDelta(tool.callId, delta));
  }

  /** Ending blocks changes what is open, not what was carried. */
  lemma {:induction false} EndsCarryOn(lane: Lane, s: State)
    ensures IdsIn(lane, EndText(s).out).carried == IdsIn(lane, EndReasoning(s).out).carried ==
      IdsIn(lane, s.out).carried
    ensures Knows(lane, s) ==> Knows(lane, EndText(s)) && Knows(lane, EndReasoning(s))
  {
    hide IdsIn;
    EndFrame(lane, s.out, TextEnd(Or(s.textId, "")));
    EndFrame(lane, s.out, ReasoningEnd(Or(s.reasoningId, "")));
  }

  lemma {:induction false} EndFrame(lane: Lane, out: Frames, f: Frame)
    requires f.TextEnd? || f.ReasoningEnd?
    ensures IdsIn(lane, Sent(out, f)) == if Ends(lane, f) then IdsIn(lane, out).(open := None) else IdsIn(lane, out)
  {
  }

  lemma {:induction false} MetadataIsQuiet(lane: Lane, s: State)
    ensures Quiet(lane, s, EmitMetadata(s)) && EmitMetadata(s).finished == s.finished
  {
  }

  lemma {:induction false} FinishCarriesOn(lane: Lane, s: State, unified: string, raw: string)
    ensures FinishWith(s, unified, raw).finished
    ensures IdsIn(lane, FinishWith(s, unified, raw).out).carried == IdsIn(lane, s.out).carried
  {
    if !s.finished {
      hide CloseOpenTools, EndText, EndReasoning, EmitMetadata, IdsIn, Knows;
      var t := EmitMetadata(s.(finished := true));
      MetadataIsQuiet(lane, s.(finished := true));
      EndsCarryOn(lane, t);
      EndsCarryOn(lane, EndReasoning(t));
      var u := EndText(EndReasoning(t));
      EndsKeepFinished(t);
      EndsKeepFinished(EndReasoning(t));
      CloseIsQuiet(lane, u);
      var v := CloseOpenTools(u);
      var finish := Finish(FinishReason(v.sawToolCall, unified), raw);
      AsideFrame(lane, v.out, finish);
      AsideFrame(lane, Sent(v.out, finish), Done);
    }
  }

  lemma {:induction false} EndsKeepFinished(s: State)
    ensures EndText(s).finished == EndReasoning(s).finished == s.finished
  {
  }

  lemma {:induction false} FinishFollows(lane: Lane, s: State, e: Event, early: State, unified: string, raw: string)
    requires Quiet(lane, s, early) && DeltaItem(lane, e).None?
    ensures Follows(lane, s, e, FinishWith(early, unified, raw))
  {
    FinishCarriesOn(lane, early, unified, raw);
  }

  lemma {:induction false} StartsFollow(lane: Lane, s: State, e: Event, id: string)
    requires DeltaItem(lane, e).None?
    ensures Follows(lane, s, e, StartText(s, id)) && Follows(lane, s, e, StartReasoning(s, id))
  {
    if lane == TextLane {
      TextStarts(s, id);
      assert Quiet(lane, s, StartReasoning(s, id));
    } else {
      ReasoningStarts(s, id);
      assert Quiet(lane, s, StartText(s, id));
    }
    hide IdsIn, StartText, StartReasoning;
  }

  lemma {:induction false} TextStarts(s: State, id: string)
    ensures IdsIn(TextLane, StartText(s, id).out).carried == IdsIn(TextLane, s.out).carried
    ensures Knows(TextLane, s) ==> Knows(TextLane, StartText(s, id))
  {
  }

  lemma {:induction false} ReasoningStarts(s: State, id: string)
    ensures IdsIn(ReasoningLane, StartReasoning(s, id).out).carried == IdsIn(ReasoningLane, s.out).carried
    ensures Knows(ReasoningLane, s) ==> Knows(ReasoningLane, StartReasoning(s, id))
  {
  }

  lemma {:induction false} TextFollows(lane: Lane, s: State, itemId: Option<string>, delta: Option<string>)
    ensures Follows(lane, s, TextPart(itemId, delta), Handle(s, TextPart(itemId, delta)))
  {
    var t := StartText(s, Or(OrElse(itemId, s.textId), "txt"));
    assert lane == ReasoningLane ==> Quiet(lane, s, t);
    assert lane == TextLane ==> t.textId.Some? && (Knows(lane, s) ==> IdsIn(lane, t.out).open == t.textId);
  }

  lemma {:induction false} ReasoningFollows(lane: Lane, s: State, itemId: Option<string>, delta: Option<string>)
    ensures Follows(lane, s, ReasoningPart(itemId, delta), Handle(s, ReasoningPart(itemId, delta)))
  {
    var t := StartReasoning(s, Or(OrElse(itemId, s.reasoningId), "rs"));
    assert lane == TextLane ==> Quiet(lane, s, t);
    assert lane == ReasoningLane ==>
      t.reasoningId.Some? && (Knows(lane, s) ==> IdsIn(lane, t.out).open == t.reasoningId);
  }

  lemma {:induction false} AddedFollows(lane: Lane, s: State, item: AddedItem)
    ensures Follows(lane, s, ItemAdded(Some(item)), HandleAdded(s, item))
  {
    var itemId := Or(item.id, "");
    hide Follows, Put;
    match item.kind
    case Message => StartsFollow(lane, s, ItemAdded(Some(item)), NonEmptyOr(itemId, "txt"));
    case Reasoning => StartsFollow(lane, s, ItemAdded(Some(item)), NonEmptyOr(itemId, "rs"));
    case FunctionCall => QuietFollows(lane, s, ItemAdded(Some(item)), HandleAdded(s, item));
    case OtherKind => QuietFollows(lane, s, ItemAdded(Some(item)), s);
  }

  lemma {:induction false} DoneFollows(lane: Lane, s: State, id: Option<string>, item: Option<DoneItem>)
    ensures Follows(lane, s, ItemDone(id, item), HandleDone(s, id, item))
  {
    hide CallTool, Get, Drop;
    var known := Get(s.tools, Or(OrElse(id, if item.Some? then item.value.id else None), ""));
    if known.Some? {
      CallIsQuiet(lane, s,
        if item.Some? && Truthy(item.value.arguments) then known.value.(arguments := item.value.arguments.value)
        else known.value);
      QuietFollows(lane, s, ItemDone(id, item), HandleDone(s, id, item));
    } else {
      EndsCarryOn(lane, s);
    }
  }

  lemma {:induction false} EventFollows(lane: Lane, s: State, e: Event)
    ensures Follows(lane, s, e, Handle(s, e))
  {
    hide Follows, FinishWith;
    match e
    case Terminator => FinishFollows(lane, s, e, s, "stop", "stop");
    case Ignored => QuietFollows(lane, s, e, s);
    case Created(model) =>
      MetadataIsQuiet(lane, RememberModel(s, model));
      QuietFollows(lane, s, e, Handle(s, e));
    case ItemAdded(added) =>
      if added.Some? {
        AddedFollows(lane, s, added.value);
      } else {
        QuietFollows(lane, s, e, s);
      }
    case TextPart(itemId, delta) => TextFollows(lane, s, itemId, delta);
    case ReasoningPart(itemId, delta) => ReasoningFollows(lane, s, itemId, delta);
    case ArgumentsPart(itemId, delta) =>
      ArgumentsAreQuiet(lane, s, Or(itemId, ""), Or(delta, ""));
      QuietFollows(lane, s, e, Handle(s, e));
    case ItemDone(itemId, item) => DoneFollows(lane, s, itemId, item);
    case Completed(model) => FinishFollows(lane, s, e, RememberModel(s, model), "stop", "completed");
    case Incomplete(model, reason) =>
      var unified := if reason == Some("max_output_tokens") then "length" else "other";
      FinishFollows(lane, s, e, RememberModel(s, model), unified, Or(reason, "incomplete"));
    case Failed(model, message, code, kind) =>
      var error := ErrorFrame(Or(OrElse(code, kind), "provider_error"), Or(message, "upstream failed"));
      FinishFollows(lane, s, e, Emit(RememberModel(s, model), error), "error", "failed");
  }

  lemma {:induction false} IdsSoFar(lane: Lane, events: Events)
    ensures var s := Consume(events);
      IdsIn(lane, s.out).carried == !SomeStray(lane, events) && (!s.finished ==> Knows(lane, s))
  {
    hide Handle, Knows, Strays;
    if events.Read? {
      IdsSoFar(lane, events.before);
      EventFollows(lane, Consume(events.before), events.event);
    } else {
      AtFirst(lane);
    }
  }

  lemma {:induction false} AtFirst(lane: Lane)
    ensures IdsIn(lane, Initial.out) == Ids(None, true) && Knows(lane, Initial)
  {
  }

  /** Every delta carries the id of its open block exactly when no delta names another item while a block is open. */
  lemma {:induction false} DeltasCarryOpenIdIffNoStray(lane: Lane, events: Events)
    ensures IdsIn(lane, Translate(events).out).carried <==> !SomeStray(lane, events)
  {
    hide Consume, FinishWith;
    IdsSoFar(lane, events);
    FinishCarriesOn(lane, Consume(events), "other", "adapter_eof");
  }

  /** The failing case in full: a second item's delta goes into the block of the first, under its own id. */
  lemma {:induction false} SecondItemStrays()
    ensures var events := Read(Read(NoEvents, TextPart(Some("a"), Some("x"))), TextPart(Some("b"), Some("y")));
      !IdsIn(TextLane, Translate(events).out).carried
  {
    var first := Read(NoEvents, TextPart(Some("a"), Some("x")));
    assert Consume(NoEvents) == Initial;
    assert Consume(first).textId == Some("a") && !Consume(first).finished;
    DeltasCarryOpenIdIffNoStray(TextLane, Read(first, TextPart(Some("b"), Some("y"))));
  }
}
