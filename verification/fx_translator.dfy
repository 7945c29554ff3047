/** The translator as the generator runs it: closures over mutable variables, driven by a loop. */
module FxTranslator {
  import opened Wrappers
  import opened FxFrames
  import opened FxStream

  class Translator {
    var out: Frames
    var tools: Tools
    var textId: Option<string>
    var reasoningId: Option<string>
    var finished: bool
    var sawToolCall: bool
    var modelId: string
    var metadataSent: bool

    function Now(): State
      reads this
    {
      State(out, tools, textId, reasoningId, finished, sawToolCall, modelId, metadataSent)
    }

    constructor ()
      ensures Now() == Initial
    {
      out, tools, textId, reasoningId := Nothing, NoTools, None, None;
      finished, sawToolCall, modelId, metadataSent := false, false, "unknown", false;
    }

    method Yield(frame: Frame)
      modifies `out
      ensures Now() == Emit(old(Now()), frame)
    {
      out := Sent(out, frame);
    }

    method Remember(model: Option<string>)
      modifies `modelId
      ensures Now() == RememberModel(old(Now()), model)
    {
      if Truthy(model) && !metadataSent {
        modelId := model.value;
      }
    }

    method SendMetadata()
      modifies `out, `metadataSent
      ensures Now() == EmitMetadata(old(Now()))
    {
      if metadataSent { return; }
      metadataSent := true;
      Yield(ResponseMetadata(modelId));
    }

    method OpenText(id: string)
      modifies `out, `textId
      ensures Now() == StartText(old(Now()), id)
    {
      if Truthy(textId) { return; }
      textId := Some(id);
      Yield(TextStart(id));
    }

    method CloseText()
      modifies `out, `textId
      ensures Now() == EndText(old(Now()))
    {
      if !Truthy(textId) { return; }
      var id := textId.value;
      textId := None;
      Yield(TextEnd(id));
    }

    method OpenReasoning(id: string)
      modifies `out, `reasoningId
      ensures Now() == StartReasoning(old(Now()), id)
    {
      if Truthy(reasoningId) { return; }
      reasoningId := Some(id);
      Yield(ReasoningStart(id));
    }

    method CloseReasoning()
      modifies `out, `reasoningId
      ensures Now() == EndReasoning(old(Now()))
    {
      if !Truthy(reasoningId) { return; }
      var id := reasoningId.value;
      reasoningId := None;
      Yield(ReasoningEnd(id));
    }

    method Call(tool: Tool)
      modifies `out, `sawToolCall
      ensures Now() == CallTool(old(Now()), tool)
    {
      if !tool.started {
        Yield(ToolInputStart(tool.callId, tool.name));
      }
      Yield(ToolInputEnd(tool.callId));
      Yield(ToolCall(tool.callId, tool.name, tool.arguments));
      sawToolCall := true;
    }

    method CloseTools()
      modifies `out, `sawToolCall, `tools
      ensures Now() == CloseOpenTools(old(Now()))
    {
      while tools != NoTools
        invariant CloseOpenTools(Now()) == CloseOpenTools(old(Now()))
        decreases tools
      {
        var tool := tools.tool;
        Call(tool);
        tools := tools.rest;
      }
    }

    method FinishStream(unified: string, raw: string)
      modifies this
      ensures Now() == FinishWith(old(Now()), unified, raw)
    {
      if finished { return; }
      finished := true;
      SendMetadata();
      CloseReasoning();
      CloseText();
      CloseTools();
      Yield(Finish(if sawToolCall && unified == "stop" then "tool-calls" else unified, raw));
      Yield(Done);
    }

    method OnAdded(item: AddedItem)
      modifies this
      ensures Now() == HandleAdded(old(Now()), item)
    {
      var itemId := Or(item.id, "");
      match item.kind
      case Message => OpenText(NonEmptyOr(itemId, "txt"));
      case Reasoning => OpenReasoning(NonEmptyOr(itemId, "rs"));
      case FunctionCall =>
        var callId, name := Or(item.callId, itemId), Or(item.name, "unknown");
        tools := Put(tools, NonEmptyOr(itemId, callId), Tool(callId, name, "", true));
        Yield(ToolInputStart(callId, name));
      case OtherKind =>
    }

    method OnArguments(itemId: string, delta: string)
      modifies this
      ensures Now() == HandleArguments(old(Now()), itemId, delta)
    {
      var key := itemId;
      var tool;
      var known := Get(tools, itemId);
      if known.Some? {
        tool := known.value;
      } else {
        var callId := NonEmptyOr(itemId, "call");
        key := NonEmptyOr(itemId, callId);
        tool := Tool(callId, "unknown", "", false);
      }
      if !tool.started {
        Yield(ToolInputStart(tool.callId, tool.name));
      }
      tools := Put(tools, key, tool.(started := true, arguments := tool.arguments + delta));
      if delta != "" {
        Yield(ToolInputDelta(tool.callId, delta));
      }
    }

    method OnDone(id: Option<string>, item: Option<DoneItem>)
      modifies this
      ensures Now() == HandleDone(old(Now()), id, item)
    {
      var itemId := Or(OrElse(id, if item.Some? then item.value.id else None), "");
      var known := Get(tools, itemId);
      if known.Some? {
        var tool := known.value;
        if item.Some? && Truthy(item.value.arguments) {
          tool := tool.(arguments := item.value.arguments.value);
        }
        Call(tool);
        tools := Drop(tools, itemId);
      } else if item.Some? && item.value.kind == Message {
        CloseText();
      } else if item.Some? && item.value.kind == Reasoning {
        CloseReasoning();
      }
    }

    method On(e: Event)
      modifies this
      ensures Now() == Handle(old(Now()), e)
    {
      match e
      case Terminator => FinishStream("stop", "stop");
      case Ignored =>
      case Created(model) =>
        Remember(model);
        if Truthy(model) { SendMetadata(); }
      case ItemAdded(item) =>
        if item.Some? { OnAdded(item.value); }
      case TextPart(itemId, delta) =>
        if Truthy(delta) {
          var id := Or(OrElse(itemId, textId), "txt");
          OpenText(id);
          Yield(TextDelta(id, delta.value));
        }
      case ReasoningPart(itemId, delta) =>
        if Truthy(delta) {
          var id := Or(OrElse(itemId, reasoningId), "rs");
          OpenReasoning(id);
          Yield(ReasoningDelta(id, delta.value));
        }
      case ArgumentsPart(itemId, delta) => OnArguments(Or(itemId, ""), Or(delta, ""));
      case ItemDone(itemId, item) => OnDone(itemId, item);
      case Completed(model) =>
        Remember(model);
        FinishStream("stop", "completed");
      case Incomplete(model, reason) =>
        Remember(model);
        FinishStream(if reason == Some("max_output_tokens") then "length" else "other", Or(reason, "incomplete"));
      case Failed(model, message, code, kind) =>
        Remember(model);
        Yield(ErrorFrame(Or(OrElse(code, kind), "provider_error"), Or(message, "upstream failed")));
        FinishStream("error", "failed");
    }
  }

  /** The first n events of a stream, as the history the specification reads. */
  function History(events: seq<Event>, n: nat): Events
    requires n <= |events|
  {
    if n == 0 then NoEvents else Read(History(events, n - 1), events[n - 1])
  }

  /** Nothing the upstream sends after the finish changes anything. */
  lemma {:induction false} FinishedIsFinal(events: seq<Event>, n: nat, m: nat)
    requires n <= m <= |events|
    requires Consume(History(events, n)).finished
    ensures Consume(History(events, m)) == Consume(History(events, n))
    decreases m
  {
    hide Handle;
    if n < m {
      FinishedIsFinal(events, n, m - 1);
      assert History(events, m) == Read(History(events, m - 1), events[m - 1]);
    }
  }

  /** The generator: it stops reading at the first event that finishes the stream, and finishes one that just ends. */
  method TranslateStream(events: seq<Event>) returns (out: Frames)
    ensures out == Translate(History(events, |events|)).out
  {
    var t := new Translator();
    var i := 0;
    while i < |events| && !t.finished
      invariant i <= |events|
      invariant t.Now() == Consume(History(events, i))
    {
      t.On(events[i]);
      i := i + 1;
    }
    if t.finished {
      FinishedIsFinal(events, i, |events|);
    }
    t.FinishStream("other", "adapter_eof");
    return t.out;
  }
}
