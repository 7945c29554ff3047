/** The whole frame stream of the Antigravity translator, read off the chunks: each frame decided by looking back. */
module AntigravityHistory {
  import opened Wrappers
  import opened FxFrames
  import opened AntigravityStream

  // ---- What is read --------------------------------------------------------------------------------

  /** Where reading stops: at the first end mark or error, or at the end. */
  function StopAt(chunks: seq<Chunk>): (n: nat)
    ensures n <= |chunks|
  {
    if chunks == [] || chunks[0].EndMark? || chunks[0].ErrorChunk? then 0 else 1 + StopAt(chunks[1..])
  }

  /** All parts of these chunks, in order. */
  function PartsOf(chunks: seq<Chunk>): seq<Part> {
    if chunks == [] then []
    else
      var last := chunks[|chunks| - 1];
      PartsOf(chunks[..|chunks| - 1]) + if last.Candidate? then last.parts else []
  }

  predicate Named(reason: Option<string>) { reason.Some? && reason.value != "" }

  /** The last finish reason these chunks name. */
  function ReasonOf(chunks: seq<Chunk>): string {
    if chunks == [] then "stop"
    else
      var last := chunks[|chunks| - 1];
      if last.Candidate? && Named(last.finishReason) then last.finishReason.value
      else ReasonOf(chunks[..|chunks| - 1])
  }

  // ---- The frames ----------------------------------------------------------------------------------

  datatype Talk = Silent | Talking | Thinking

  predicate Says(part: Part) { part.SpokenPart? && part.text.Some? && part.text.value != "" }

  /** Which block is open behind these parts: that of the last text or thought, unless a call came after it. */
  function TalkAfter(parts: seq<Part>): Talk {
    if parts == [] then Silent
    else
      var last := parts[|parts| - 1];
      if last.FunctionCallPart? then Silent
      else if Says(last) then (if last.thought then Thinking else Talking)
      else TalkAfter(parts[..|parts| - 1])
  }

  function Ending(talk: Talk): seq<Frame> {
    match talk
    case Silent => []
    case Talking => [TextEnd("x0")]
    case Thinking => [ReasoningEnd("x1")]
  }

  function FramesFor(talk: Talk, part: Part): seq<Frame> {
    match part
    case NoPart => []
    case FunctionCallPart(id, random, name, arguments) =>
      var callId := if id.Some? then id.value else random;
      var toolName := if name.Some? then name.value else "unknown";
      Ending(talk) + [ToolInputStart(callId, toolName), ToolInputEnd(callId), ToolCall(callId, toolName, arguments)]
    case SpokenPart(text, thought) =>
      if !Says(part) then []
      else if thought then
        (if talk == Thinking then [] else Ending(talk) + [ReasoningStart("x1")]) + [ReasoningDelta("x1", text.value)]
      else (if talk == Talking then [] else Ending(talk) + [TextStart("x0")]) + [TextDelta("x0", text.value)]
  }

  function FramesOf(parts: seq<Part>): seq<Frame> {
    if parts == [] then []
    else
      var front := parts[..|parts| - 1];
      FramesOf(front) + FramesFor(TalkAfter(front), parts[|parts| - 1])
  }

  predicate SomeCall(parts: seq<Part>) { exists part :: part in parts && part.FunctionCallPart? }

  /** The finish of a stream that was not broken off by an error. */
  function FinishOf(chunks: seq<Chunk>): Frame {
    var raw := ReasonOf(chunks);
    Finish(if SomeCall(PartsOf(chunks)) then "tool-calls" else if raw == "MAX_TOKENS" then "length" else "stop", raw)
  }

  function AllFrames(model: string, chunks: seq<Chunk>): seq<Frame> {
    var n := StopAt(chunks);
    var parts := PartsOf(chunks[..n]);
    [ResponseMetadata(model)] + FramesOf(parts) + Ending(TalkAfter(parts)) +
    if n < |chunks| && chunks[n].ErrorChunk? then
      var message, status := chunks[n].message, chunks[n].status;
      [ErrorFrame("antigravity_direct", if message.Some? then message.value else "Antigravity error"),
       Finish("error", if status.Some? then status.value else "error"), Done]
    else [FinishOf(chunks[..n]), Done]
  }

  // ---- The translator sends them -------------------------------------------------------------------

  ghost predicate BlocksAre(s: State, talk: Talk) {
    && s.textId == (if talk == Talking then Some("x0") else None)
    && s.reasoningId == (if talk == Thinking then Some("x1") else None)
  }

  /** The parts so far were sent, and the variables say which block is open. */
  ghost predicate SentParts(s: State, model: string, parts: seq<Part>) {
    && ListOf(s.out) == [ResponseMetadata(model)] + FramesOf(parts)
    && BlocksAre(s, TalkAfter(parts)) && s.sawTool == SomeCall(parts)
  }

  lemma {:induction false} OpenAndClose(s: State)
    ensures ListOf(StartText(s).out) == ListOf(s.out) + if s.textId.Some? then [] else [TextStart("x0")]
    ensures ListOf(StartReasoning(s).out) == ListOf(s.out) + if s.reasoningId.Some? then [] else [ReasoningStart("x1")]
    ensures StartText(s) == s.(out := StartText(s).out, textId := Some(if s.textId.Some? then s.textId.value else "x0"))
    ensures StartReasoning(s) == s.(out := StartReasoning(s).out,
      reasoningId := Some(if s.reasoningId.Some? then s.reasoningId.value else "x1"))
    ensures ListOf(EndText(s).out) == ListOf(s.out) + if s.textId.Some? then [TextEnd(s.textId.value)] else []
    ensures ListOf(EndReasoning(s).out) ==
      ListOf(s.out) + if s.reasoningId.Some? then [ReasoningEnd(s.reasoningId.value)] else []
    ensures EndText(s) == s.(out := EndText(s).out, textId := None)
    ensures EndReasoning(s) == s.(out := EndReasoning(s).out, reasoningId := None)
  {
  }

  lemma {:induction false} ClosingEnds(s: State, talk: Talk)
    requires BlocksAre(s, talk)
    ensures ListOf(CloseBlocks(s).out) == ListOf(s.out) + Ending(talk)
    ensures CloseBlocks(s) == s.(out := CloseBlocks(s).out, textId := None, reasoningId := None)
  {
    hide StartText, StartReasoning, EndText, EndReasoning, ListOf;
    OpenAndClose(s);
    OpenAndClose(EndReasoning(s));
  }

  lemma {:induction false} CallSends(s: State, talk: Talk, part: Part)
    requires BlocksAre(s, talk) && part.FunctionCallPart?
    ensures var t := OnPart(s, part);
      && ListOf(t.out) == ListOf(s.out) + FramesFor(talk, part)
      && t == s.(out := t.out, textId := None, reasoningId := None, sawTool := true)
  {
    hide ListOf, CloseBlocks, Ending;
    ClosingEnds(s, talk);
    var t := CloseBlocks(s);
    var callId, toolName := Or(part.id, part.random), Or(part.name, "unknown");
    var begun := Sent(t.out, ToolInputStart(callId, toolName));
    var ended := Sent(begun, ToolInputEnd(callId));
    OneMore(t.out, ToolInputStart(callId, toolName));
    OneMore(begun, ToolInputEnd(callId));
    OneMore(ended, ToolCall(callId, toolName, part.arguments));
  }

  lemma {:induction false} ThoughtSends(s: State, talk: Talk, part: Part)
    requires BlocksAre(s, talk) && Says(part) && part.thought
    ensures var t := OnPart(s, part);
      && ListOf(t.out) == ListOf(s.out) + FramesFor(talk, part)
      && t == s.(out := t.out, textId := None, reasoningId := Some("x1"))
  {
    hide StartReasoning, EndText, ListOf;
    OpenAndClose(s);
    OpenAndClose(EndText(s));
    OneMore(StartReasoning(EndText(s)).out, ReasoningDelta("x1", part.text.value));
  }

  lemma {:induction false} TextSends(s: State, talk: Talk, part: Part)
    requires BlocksAre(s, talk) && Says(part) && !part.thought
    ensures var t := OnPart(s, part);
      && ListOf(t.out) == ListOf(s.out) + FramesFor(talk, part)
      && t == s.(out := t.out, textId := Some("x0"), reasoningId := None)
  {
    hide StartText, EndReasoning, ListOf;
    OpenAndClose(s);
    OpenAndClose(EndReasoning(s));
    OneMore(StartText(EndReasoning(s)).out, TextDelta("x0", part.text.value));
  }

  lemma {:induction false} NothingSends(s: State, talk: Talk, part: Part)
    requires !part.FunctionCallPart? && !Says(part)
    ensures OnPart(s, part) == s && FramesFor(talk, part) == []
  {
  }

  lemma {:induction false} PartSends(s: State, talk: Talk, part: Part)
    requires BlocksAre(s, talk)
    ensures var t := OnPart(s, part);
      && ListOf(t.out) == ListOf(s.out) + FramesFor(talk, part)
      && BlocksAre(t, if part.FunctionCallPart? then Silent
          else if Says(part) then (if part.thought then Thinking else Talking) else talk)
      && t.sawTool == (s.sawTool || part.FunctionCallPart?)
      && t == s.(out := t.out, textId := t.textId, reasoningId := t.reasoningId, sawTool := t.sawTool)
  {
    hide OnPart, FramesFor, ListOf;
    if part.FunctionCallPart? {
      CallSends(s, talk, part);
    } else if !Says(part) {
      NothingSends(s, talk, part);
    } else if part.thought {
      ThoughtSends(s, talk, part);
    } else {
      TextSends(s, talk, part);
    }
  }

  lemma {:induction false} OnePartMore(parts: seq<Part>, part: Part)
    ensures FramesOf(parts + [part]) == FramesOf(parts) + FramesFor(TalkAfter(parts), part)
    ensures TalkAfter(parts + [part]) == if part.FunctionCallPart? then Silent
      else if Says(part) then (if part.thought then Thinking else Talking)
      else TalkAfter(parts)
    ensures SomeCall(parts + [part]) <==> SomeCall(parts) || part.FunctionCallPart?
  {
    assert (parts + [part])[..|parts|] == parts;
    assert forall p :: p in parts + [part] <==> p in parts || p == part;
  }

  lemma {:induction false} PartsSend(s: State, model: string, said: seq<Part>, parts: seq<Part>, k: nat)
    requires k <= |parts| && SentParts(s, model, said)
    ensures var t := OnParts(s, parts, k);
      && SentParts(t, model, said + parts[..k])
      && t == s.(out := t.out, textId := t.textId, reasoningId := t.reasoningId, sawTool := t.sawTool)
  {
    hide OnPart, FramesOf, FramesFor, TalkAfter, SomeCall, ListOf, Says;
    if k == 0 {
      assert said + parts[..0] == said;
    } else {
      PartsSend(s, model, said, parts, k - 1);
      var before := said + parts[..k - 1];
      assert said + parts[..k] == before + [parts[k - 1]];
      PartSends(OnParts(s, parts, k - 1), TalkAfter(before), parts[k - 1]);
      OnePartMore(before, parts[k - 1]);
    }
  }

  /** After k chunks without a stop. */
  ghost predicate SentChunks(s: State, model: string, chunks: seq<Chunk>) {
    SentParts(s, model, PartsOf(chunks)) && s.finishRaw == ReasonOf(chunks) && !s.broken && !s.stopped
  }

  lemma {:induction false} ChunkSends(s: State, model: string, chunks: seq<Chunk>, chunk: Chunk)
    requires SentChunks(s, model, chunks) && !chunk.EndMark? && !chunk.ErrorChunk?
    ensures SentChunks(OnChunk(s, chunk), model, chunks + [chunk])
  {
    hide SentParts, OnParts;
    assert (chunks + [chunk])[..|chunks|] == chunks;
    if chunk.Candidate? {
      PartsSend(s, model, PartsOf(chunks), chunk.parts, |chunk.parts|);
      assert chunk.parts[..|chunk.parts|] == chunk.parts;
      SameParts(OnParts(s, chunk.parts, |chunk.parts|), OnChunk(s, chunk), model, PartsOf(chunks + [chunk]));
    } else {
      assert PartsOf(chunks) + [] == PartsOf(chunks);
      SameParts(s, OnChunk(s, chunk), model, PartsOf(chunks));
    }
  }

  lemma {:induction false} SameParts(s: State, t: State, model: string, parts: seq<Part>)
    requires SentParts(s, model, parts)
    requires t == s.(finishRaw := t.finishRaw)
    ensures SentParts(t, model, parts)
  {
  }

  lemma {:induction false} StopFacts(chunks: seq<Chunk>)
    ensures var n := StopAt(chunks);
      && (forall i :: 0 <= i < n ==> !chunks[i].EndMark? && !chunks[i].ErrorChunk?)
      && (n < |chunks| ==> chunks[n].EndMark? || chunks[n].ErrorChunk?)
  {
    if chunks != [] && !chunks[0].EndMark? && !chunks[0].ErrorChunk? {
      StopFacts(chunks[1..]);
    }
  }

  lemma {:induction false} ChunksSend(model: string, chunks: seq<Chunk>, k: nat)
    requires k <= StopAt(chunks)
    ensures SentChunks(OnChunks(model, chunks, k), model, chunks[..k])
  {
    hide SentChunks, OnChunk;
    if k == 0 {
      Beginning(model, chunks);
    } else {
      StopFacts(chunks);
      ChunksSend(model, chunks, k - 1);
      assert chunks[..k] == chunks[..k - 1] + [chunks[k - 1]];
      StillReading(OnChunks(model, chunks, k - 1), model, chunks[..k - 1]);
      ChunkSends(OnChunks(model, chunks, k - 1), model, chunks[..k - 1], chunks[k - 1]);
    }
  }

  lemma {:induction false} Beginning(model: string, chunks: seq<Chunk>)
    ensures SentChunks(Begin(model), model, chunks[..0])
  {
    assert chunks[..0] == [] && PartsOf([]) == [];
    assert ListOf(Sent(Nothing, ResponseMetadata(model))) == [ResponseMetadata(model)];
  }

  lemma {:induction false} StillReading(s: State, model: string, chunks: seq<Chunk>)
    requires SentChunks(s, model, chunks)
    ensures !s.broken && !s.stopped
  {
  }

  /** The state at the end: an error closed the stream, or its end mark or its end did. */
  lemma {:induction false} WhereItStops(model: string, chunks: seq<Chunk>)
    ensures var n := StopAt(chunks);
      OnChunks(model, chunks, |chunks|) ==
        if n < |chunks| then OnChunk(OnChunks(model, chunks, n), chunks[n]) else OnChunks(model, chunks, n)
  {
    hide OnChunk;
    var n := StopAt(chunks);
    StopFacts(chunks);
    ChunksSend(model, chunks, n);
    StillReading(OnChunks(model, chunks, n), model, chunks[..n]);
    if n < |chunks| {
      assert OnChunks(model, chunks, n + 1) == OnChunk(OnChunks(model, chunks, n), chunks[n]);
      Stopped(OnChunks(model, chunks, n), chunks[n]);
      NothingMoreIsRead(model, chunks, n + 1, |chunks|);
    }
  }

  lemma {:induction false} Stopped(s: State, chunk: Chunk)
    requires chunk.EndMark? || chunk.ErrorChunk?
    ensures OnChunk(s, chunk).broken || OnChunk(s, chunk).stopped
  {
  }

  /** The translator with its variables sends exactly the frames read off the chunks. */
  lemma {:induction false} SendsWhatChunksAsk(model: string, chunks: seq<Chunk>)
    ensures ListOf(Translate(model, chunks).out) == AllFrames(model, chunks)
  {
    hide OnChunks, PartsOf, ReasonOf, FramesOf, TalkAfter, SomeCall, CloseBlocks, ListOf;
    var n := StopAt(chunks);
    var s, parts := OnChunks(model, chunks, n), PartsOf(chunks[..n]);
    WhereItStops(model, chunks);
    StopFacts(chunks);
    ChunksSend(model, chunks, n);
    ClosingEnds(s, TalkAfter(parts));
    var t := CloseBlocks(s);
    if n < |chunks| && chunks[n].ErrorChunk? {
      var error := ErrorFrame("antigravity_direct", Or(chunks[n].message, "Antigravity error"));
      var finish := Finish("error", Or(chunks[n].status, "error"));
      OneMore(t.out, error);
      OneMore(Sent(t.out, error), finish);
      OneMore(Sent(Sent(t.out, error), finish), Done);
    } else {
      ClosingIgnoresBreak(s);
      var finish := Finish(Unified(s.sawTool, s.finishRaw), s.finishRaw);
      OneMore(t.out, finish);
      OneMore(Sent(t.out, finish), Done);
    }
  }

  lemma {:induction false} ClosingIgnoresBreak(s: State)
    ensures CloseBlocks(s.(broken := true)) == CloseBlocks(s).(broken := true)
  {
  }
}
