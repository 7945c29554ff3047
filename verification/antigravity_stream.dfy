/** The translator from Antigravity chunks to the same frame stream; at most one block is open at a time. */
module AntigravityStream {
  import opened Wrappers
  import opened FxFrames

  /** One part of a candidate; `random` is the random id used when the call carries none. */
  datatype Part =
    | NoPart
    | FunctionCallPart(id: Option<string>, random: string, name: Option<string>, arguments: string)
    | SpokenPart(text: Option<string>, thought: bool)

  /** One upstream event after its JSON was read. */
  datatype Chunk =
    | EndMark
    | Unreadable
    | ErrorChunk(message: Option<string>, status: Option<string>)
    | NoCandidate
    | Candidate(parts: seq<Part>, finishReason: Option<string>)

  const TEXT_ID := "x0"
  const REASONING_ID := "x1"

  /** `stopped` once the stream was ended early, `broken` off once the end mark was read. */
  datatype State = State(
    out: Frames,
    textId: Option<string>,
    reasoningId: Option<string>,
    finishRaw: string,
    sawTool: bool,
    broken: bool,
    stopped: bool)

  function Emit(s: State, frame: Frame): State { s.(out := Sent(s.out, frame)) }

  function Begin(model: string): State {
    Emit(State(Nothing, None, None, "stop", false, false, false), ResponseMetadata(model))
  }

  function StartText(s: State): State {
    if s.textId.Some? then s else Emit(s, TextStart(TEXT_ID)).(textId := Some(TEXT_ID))
  }

  function EndText(s: State): State {
    if s.textId.None? then s else Emit(s, TextEnd(s.textId.value)).(textId := None)
  }

  function StartReasoning(s: State): State {
    if s.reasoningId.Some? then s else Emit(s, ReasoningStart(REASONING_ID)).(reasoningId := Some(REASONING_ID))
  }

  function EndReasoning(s: State): State {
    if s.reasoningId.None? then s else Emit(s, ReasoningEnd(s.reasoningId.value)).(reasoningId := None)
  }

  function CloseBlocks(s: State): State { EndText(EndReasoning(s)) }

  function OnPart(s: State, part: Part): State {
    match part
    case NoPart => s
    case FunctionCallPart(id, random, name, arguments) =>
      var callId, toolName := Or(id, random), Or(name, "unknown");
      Emit(Emit(Emit(CloseBlocks(s), ToolInputStart(callId, toolName)), ToolInputEnd(callId)),
        ToolCall(callId, toolName, arguments)).(sawTool := true)
    case SpokenPart(text, thought) =>
      if !Truthy(text) then s
      else if thought then Emit(StartReasoning(EndText(s)), ReasoningDelta(REASONING_ID, text.value))
      else Emit(StartText(EndReasoning(s)), TextDelta(TEXT_ID, text.value))
  }

  /** The state after the first k parts. */
  function OnParts(s: State, parts: seq<Part>, k: nat): State
    requires k <= |parts|
  {
    if k == 0 then s else OnPart(OnParts(s, parts, k - 1), parts[k - 1])
  }

  function OnChunk(s: State, chunk: Chunk): State {
    match chunk
    case EndMark => s.(broken := true)
    case Unreadable => s
    case NoCandidate => s
    case ErrorChunk(message, status) =>
      var error := Emit(CloseBlocks(s), ErrorFrame("antigravity_direct", Or(message, "Antigravity error")));
      Emit(Emit(error, Finish("error", Or(status, "error"))), Done).(stopped := true)
    case Candidate(parts, finishReason) =>
      var t := OnParts(s, parts, |parts|);
      if Truthy(finishReason) then t.(finishRaw := finishReason.value) else t
  }

  /** The state after the first k chunks; nothing is read after the end mark or an error. */
  function OnChunks(model: string, chunks: seq<Chunk>, k: nat): State
    requires k <= |chunks|
  {
    if k == 0 then Begin(model)
    else
      var s := OnChunks(model, chunks, k - 1);
      if s.broken || s.stopped then s else OnChunk(s, chunks[k - 1])
  }

  function Unified(sawTool: bool, finishRaw: string): string {
    if sawTool then "tool-calls" else if finishRaw == "MAX_TOKENS" then "length" else "stop"
  }

  function End(s: State): State {
    if s.stopped then s else Emit(Emit(CloseBlocks(s), Finish(Unified(s.sawTool, s.finishRaw), s.finishRaw)), Done)
  }

  function Translate(model: string, chunks: seq<Chunk>): State { End(OnChunks(model, chunks, |chunks|)) }

  // ---- The generator ---------------------------------------------------------------------------------

  class Generator {
    var out: Frames
    var textId: Option<string>
    var reasoningId: Option<string>
    var finishRaw: string
    var sawTool: bool

    function Now(broken: bool, stopped: bool): State
      reads this
    {
      State(out, textId, reasoningId, finishRaw, sawTool, broken, stopped)
    }

    constructor (model: string)
      ensures Now(false, false) == Begin(model)
    {
      out, textId, reasoningId, finishRaw, sawTool := Sent(Nothing, ResponseMetadata(model)), None, None, "stop", false;
    }

    method Yield(frame: Frame)
      modifies `out
      ensures out == Sent(old(out), frame)
    {
      out := Sent(out, frame);
    }

    method OpenText()
      modifies `out, `textId
      ensures Now(false, false) == StartText(old(Now(false, false)))
    {
      if textId.Some? { return; }
      textId := Some(TEXT_ID);
      Yield(TextStart(TEXT_ID));
    }

    method CloseText()
      modifies `out, `textId
      ensures Now(false, false) == EndText(old(Now(false, false)))
    {
      if textId.None? { return; }
      var id := textId.value;
      textId := None;
      Yield(TextEnd(id));
    }

    method OpenReasoning()
      modifies `out, `reasoningId
      ensures Now(false, false) == StartReasoning(old(Now(false, false)))
    {
      if reasoningId.Some? { return; }
      reasoningId := Some(REASONING_ID);
      Yield(ReasoningStart(REASONING_ID));
    }

    method CloseReasoning()
      modifies `out, `reasoningId
      ensures Now(false, false) == EndReasoning(old(Now(false, false)))
    {
      if reasoningId.None? { return; }
      var id := reasoningId.value;
      reasoningId := None;
      Yield(ReasoningEnd(id));
    }

    method TakePart(part: Part)
      modifies this
      ensures Now(false, false) == OnPart(old(Now(false, false)), part)
    {
      match part
      case NoPart =>
      case FunctionCallPart(id, random, name, arguments) =>
        CloseReasoning();
        CloseText();
        var callId, toolName := Or(id, random), Or(name, "unknown");
        sawTool := true;
        Yield(ToolInputStart(callId, toolName));
        Yield(ToolInputEnd(callId));
        Yield(ToolCall(callId, toolName, arguments));
      case SpokenPart(text, thought) =>
        if Truthy(text) {
          if thought {
            CloseText();
            OpenReasoning();
            Yield(ReasoningDelta(REASONING_ID, text.value));
          } else {
            CloseReasoning();
            OpenText();
            Yield(TextDelta(TEXT_ID, text.value));
          }
        }
    }

    /** One chunk; true once nothing more is to be read. */
    method TakeChunk(chunk: Chunk) returns (broken: bool, stopped: bool)
      modifies this
      ensures Now(broken, stopped) == OnChunk(old(Now(false, false)), chunk)
    {
      match chunk
      case EndMark => return true, false;
      case Unreadable => return false, false;
      case NoCandidate => return false, false;
      case ErrorChunk(message, status) =>
        CloseReasoning();
        CloseText();
        Yield(ErrorFrame("antigravity_direct", Or(message, "Antigravity error")));
        Yield(Finish("error", Or(status, "error")));
        Yield(Done);
        return false, true;
      case Candidate(parts, finishReason) =>
        for k := 0 to |parts|
          invariant Now(false, false) == OnParts(old(Now(false, false)), parts, k)
        {
          TakePart(parts[k]);
        }
        if Truthy(finishReason) {
          finishRaw := finishReason.value;
        }
        return false, false;
    }
  }

  lemma {:induction false} NothingMoreIsRead(model: string, chunks: seq<Chunk>, k: nat, n: nat)
    requires k <= n <= |chunks|
    requires var s := OnChunks(model, chunks, k); s.broken || s.stopped
    ensures OnChunks(model, chunks, n) == OnChunks(model, chunks, k)
    decreases n
  {
    hide OnChunk;
    if k < n {
      NothingMoreIsRead(model, chunks, k, n - 1);
    }
  }

  method AntigravityToFxSse(model: string, chunks: seq<Chunk>) returns (out: Frames)
    ensures out == Translate(model, chunks).out
  {
    var g := new Generator(model);
    var k, broken, stopped := 0, false, false;
    while k < |chunks| && !broken && !stopped
      invariant k <= |chunks|
      invariant g.Now(broken, stopped) == OnChunks(model, chunks, k)
    {
      broken, stopped := g.TakeChunk(chunks[k]);
      k := k + 1;
    }
    if broken || stopped {
      NothingMoreIsRead(model, chunks, k, |chunks|);
    }
    if stopped { return g.out; }
    g.CloseReasoning();
    g.CloseText();
    g.Yield(Finish(Unified(g.sawTool, g.finishRaw), g.finishRaw));
    g.Yield(Done);
    return g.out;
  }

  // ---- What a reader of the frames may rely on -----------------------------------------------------

  datatype Mode =
    | Unstarted | Between | InText | InReasoning
    | Calling(id: string, name: string) | Called(id: string, name: string)
    | Erred | Finished | Closed | Wrong

  /** Reads one frame; `Wrong` when it is out of place. */
  function Next(m: Mode, f: Frame): Mode {
    match m
    case Unstarted => if f.ResponseMetadata? then Between else Wrong
    case Between =>
      (match f
        case TextStart(id) => if id == TEXT_ID then InText else Wrong
        case ReasoningStart(id) => if id == REASONING_ID then InReasoning else Wrong
        case ToolInputStart(id, name) => Calling(id, name)
        case ErrorFrame(_, _) => Erred
        case Finish(unified, _) => if unified != "error" then Finished else Wrong
        case _ => Wrong)
    case InText => if f == TextEnd(TEXT_ID) then Between
      else if f.TextDelta? && f.id == TEXT_ID && f.delta != "" then InText else Wrong
    case InReasoning =>
      if f == ReasoningEnd(REASONING_ID) then Between
      else if f.ReasoningDelta? && f.id == REASONING_ID && f.delta != "" then InReasoning
      else Wrong
    case Calling(id, name) => if f == ToolInputEnd(id) then Called(id, name) else Wrong
    case Called(id, name) => if f.ToolCall? && f.id == id && f.name == name then Between else Wrong
    case Erred => if f.Finish? && f.unified == "error" then Finished else Wrong
    case Finished => if f == Done then Closed else Wrong
    case _ => Wrong
  }

  function Read(out: Frames): Mode {
    match out
    case Nothing => Unstarted
    case Sent(earlier, f) => Next(Read(earlier), f)
  }

  function LastFinish(out: Frames): Option<string> {
    match out
    case Nothing => None
    case Sent(earlier, f) => if f.Finish? then Some(f.unified) else LastFinish(earlier)
  }

  function ModeOf(s: State): Mode {
    if s.stopped then Closed else if s.textId.Some? then InText else if s.reasoningId.Some? then InReasoning
    else Between
  }

  /** The open block is the one the reader is in, and its id is the fixed one. */
  predicate Faithful(s: State) {
    && Read(s.out) == ModeOf(s)
    && (s.textId.Some? ==> s.textId.value == TEXT_ID && s.reasoningId.None?)
    && (s.reasoningId.Some? ==> s.reasoningId.value == REASONING_ID)
    && (s.sawTool <==> CalledTool(s.out))
    && (s.stopped ==> LastFinish(s.out) == Some("error"))
  }

  lemma {:induction false} ClosingIsFaithful(s: State)
    requires Faithful(s) && !s.stopped
    ensures var t := CloseBlocks(s);
      Faithful(t) && t.textId.None? && t.reasoningId.None? && t.sawTool == s.sawTool && t.finishRaw == s.finishRaw &&
        !t.stopped
  {
  }

  lemma {:induction false} CallIsFaithful(s: State, id: string, name: string, arguments: string)
    requires Faithful(s) && !s.stopped && s.textId.None? && s.reasoningId.None?
    ensures Faithful(Emit(Emit(Emit(s, ToolInputStart(id, name)), ToolInputEnd(id)),
      ToolCall(id, name, arguments)).(sawTool := true))
  {
    var a := Emit(s, ToolInputStart(id, name));
    var b := Emit(a, ToolInputEnd(id));
    assert Read(a.out) == Calling(id, name);
    assert Read(b.out) == Called(id, name);
  }

  lemma {:induction false} PartIsFaithful(s: State, part: Part)
    requires Faithful(s) && !s.stopped
    ensures Faithful(OnPart(s, part)) && !OnPart(s, part).stopped
  {
    match part
    case NoPart =>
    case FunctionCallPart(id, random, name, arguments) =>
      ClosingIsFaithful(s);
      CallIsFaithful(CloseBlocks(s), Or(id, random), Or(name, "unknown"), arguments);
    case SpokenPart(text, thought) =>
      if Truthy(text) && thought {
        assert Faithful(EndText(s)) && Faithful(StartReasoning(EndText(s)));
      } else if Truthy(text) {
        assert Faithful(EndReasoning(s)) && Faithful(StartText(EndReasoning(s)));
      }
  }

  lemma {:induction false} PartsAreFaithful(s: State, parts: seq<Part>, k: nat)
    requires k <= |parts| && Faithful(s) && !s.stopped
    ensures Faithful(OnParts(s, parts, k)) && !OnParts(s, parts, k).stopped
  {
    hide Faithful, OnPart;
    if k > 0 {
      PartsAreFaithful(s, parts, k - 1);
      PartIsFaithful(OnParts(s, parts, k - 1), parts[k - 1]);
    }
  }

  lemma {:induction false} ChunkIsFaithful(s: State, chunk: Chunk)
    requires Faithful(s) && !s.stopped
    ensures Faithful(OnChunk(s, chunk))
  {
    match chunk
    case EndMark =>
    case Unreadable =>
    case NoCandidate =>
    case ErrorChunk(message, status) =>
      ClosingIsFaithful(s);
      var error := Emit(CloseBlocks(s), ErrorFrame("antigravity_direct", Or(message, "Antigravity error")));
      var finish := Emit(error, Finish("error", Or(status, "error")));
      assert Read(error.out) == Erred;
      assert Read(finish.out) == Finished && LastFinish(finish.out) == Some("error");
      assert CalledTool(finish.out) == CalledTool(error.out) == CalledTool(s.out);
    case Candidate(parts, finishReason) =>
      PartsAreFaithful(s, parts, |parts|);
  }

  lemma {:induction false} ChunksAreFaithful(model: string, chunks: seq<Chunk>, k: nat)
    requires k <= |chunks|
    ensures Faithful(OnChunks(model, chunks, k))
  {
    hide Faithful, OnChunk;
    if k == 0 {
      BeginIsFaithful(model);
    } else {
      ChunksAreFaithful(model, chunks, k - 1);
      var s := OnChunks(model, chunks, k - 1);
      if !s.broken && !s.stopped {
        ChunkIsFaithful(s, chunks[k - 1]);
      }
    }
  }

  lemma {:induction false} BeginIsFaithful(model: string)
    ensures Faithful(Begin(model))
  {
    assert Read(Nothing) == Unstarted;
  }

  /**
   * Every chunk sequence gives a well-formed frame stream that ends in one finish and the end mark; a finish that is no
   * error says "tool-calls" exactly when a tool was called.
   */
  lemma {:induction false} EveryStreamIsWellFormed(model: string, chunks: seq<Chunk>)
    ensures var out := Translate(model, chunks).out;
      Read(out) == Closed && LastFinish(out).Some? &&
      (LastFinish(out).value != "error" ==> (LastFinish(out).value == "tool-calls" <==> CalledTool(out)))
  {
    hide OnChunks, CloseBlocks;
    var s := OnChunks(model, chunks, |chunks|);
    ChunksAreFaithful(model, chunks, |chunks|);
    if !s.stopped {
      ClosingIsFaithful(s);
      var t := CloseBlocks(s);
      var u := Emit(t, Finish(Unified(s.sawTool, s.finishRaw), s.finishRaw));
      assert Read(u.out) == Finished;
      assert LastFinish(End(s).out) == LastFinish(u.out);
      assert CalledTool(End(s).out) == CalledTool(u.out) == CalledTool(t.out);
    }
  }

  // ---- Nothing said is lost --------------------------------------------------------------------------

  function Meant(part: Part): seq<Speech> {
    match part
    case NoPart => []
    case FunctionCallPart(id, random, name, arguments) => [Ask(Or(id, random), Or(name, "unknown"), arguments)]
    case SpokenPart(text, thought) => if !Truthy(text) then [] else if thought then [Think(text.value)]
      else [Say(text.value)]
  }

  /** What the first k parts say. */
  function MeantBy(parts: seq<Part>, k: nat): seq<Speech>
    requires k <= |parts|
  {
    if k == 0 then [] else MeantBy(parts, k - 1) + Meant(parts[k - 1])
  }

  predicate Stops(chunk: Chunk) { chunk.EndMark? || chunk.ErrorChunk? }

  /** What the chunks before the first end mark or error say. */
  function Heard(chunks: seq<Chunk>): seq<Speech> {
    if chunks == [] || Stops(chunks[0]) then []
    else (if chunks[0].Candidate? then MeantBy(chunks[0].parts, |chunks[0].parts|) else []) + Heard(chunks[1..])
  }

  /** What one chunk says unless it stops the stream. */
  function Says(chunk: Chunk): seq<Speech> { if chunk.Candidate? then MeantBy(chunk.parts, |chunk.parts|) else [] }

  predicate SomeStop(chunks: seq<Chunk>) { exists i :: 0 <= i < |chunks| && Stops(chunks[i]) }

  lemma {:induction false} HeardSnoc(chunks: seq<Chunk>, chunk: Chunk)
    ensures Heard(chunks + [chunk]) ==
      if SomeStop(chunks) then Heard(chunks) else Heard(chunks) + Says(chunk)
  {
    hide MeantBy;
    if chunks == [] {
      assert ([] + [chunk])[1..] == [];
    } else {
      assert (chunks + [chunk])[1..] == chunks[1..] + [chunk];
      HeardSnoc(chunks[1..], chunk);
      assert SomeStop(chunks) <==> Stops(chunks[0]) || SomeStop(chunks[1..]) by {
        assert forall i :: 0 <= i < |chunks[1..]| ==> chunks[1..][i] == chunks[i + 1];
        assert forall i :: 1 <= i < |chunks| ==> chunks[i] == chunks[1..][i - 1];
      }
    }
  }

  /** Opening and closing blocks says nothing. */
  lemma {:induction false} BlocksAreSilent(s: State)
    ensures Spoken(StartText(s).out) == Spoken(EndText(s).out) == Spoken(s.out)
    ensures Spoken(StartReasoning(s).out) == Spoken(EndReasoning(s).out) == Spoken(s.out)
  {
    hide Spoken;
    SilentFrame(s.out, TextStart(TEXT_ID));
    SilentFrame(s.out, TextEnd(Or(s.textId, "")));
    SilentFrame(s.out, ReasoningStart(REASONING_ID));
    SilentFrame(s.out, ReasoningEnd(Or(s.reasoningId, "")));
  }

  lemma {:induction false} ClosingIsSilent(s: State)
    ensures Spoken(CloseBlocks(s).out) == Spoken(s.out)
  {
    hide Spoken, EndText, EndReasoning;
    BlocksAreSilent(s);
    BlocksAreSilent(EndReasoning(s));
  }

  lemma {:induction false} CallSpeaks(s: State, id: string, name: string, arguments: string)
    ensures var t := Emit(Emit(Emit(s, ToolInputStart(id, name)), ToolInputEnd(id)), ToolCall(id, name, arguments));
      Spoken(t.out) == Spoken(s.out) + [Ask(id, name, arguments)]
  {
    var a := Emit(s, ToolInputStart(id, name));
    assert Spoken(Emit(a, ToolInputEnd(id)).out) == Spoken(a.out) == Spoken(s.out);
  }

  lemma {:induction false} PartSpeaks(s: State, part: Part)
    ensures Spoken(OnPart(s, part).out) == Spoken(s.out) + Meant(part)
  {
    hide StartText, EndText, StartReasoning, EndReasoning, CloseBlocks;
    match part
    case NoPart =>
    case FunctionCallPart(id, random, name, arguments) =>
      ClosingIsSilent(s);
      CallSpeaks(CloseBlocks(s), Or(id, random), Or(name, "unknown"), arguments);
    case SpokenPart(text, thought) =>
      BlocksAreSilent(s);
      BlocksAreSilent(EndText(s));
      BlocksAreSilent(EndReasoning(s));
  }

  lemma {:induction false} PartsSpeak(s: State, parts: seq<Part>, k: nat)
    requires k <= |parts|
    ensures Spoken(OnParts(s, parts, k).out) == Spoken(s.out) + MeantBy(parts, k)
    ensures OnParts(s, parts, k).broken == s.broken && OnParts(s, parts, k).stopped == s.stopped
  {
    hide Spoken, Meant;
    if k > 0 {
      PartsSpeak(s, parts, k - 1);
      PartSpeaks(OnParts(s, parts, k - 1), parts[k - 1]);
    }
  }

  lemma {:induction false} ChunkSpeaks(s: State, chunk: Chunk)
    requires !s.broken && !s.stopped
    ensures var t := OnChunk(s, chunk);
      Spoken(t.out) == Spoken(s.out) + Says(chunk) && (t.broken || t.stopped <==> Stops(chunk))
  {
    match chunk
    case EndMark =>
    case Unreadable =>
    case NoCandidate =>
    case ErrorChunk(message, status) =>
      ClosingIsSilent(s);
      var error := Emit(CloseBlocks(s), ErrorFrame("antigravity_direct", Or(message, "Antigravity error")));
      assert Spoken(Emit(error, Finish("error", Or(status, "error"))).out) == Spoken(error.out) == Spoken(s.out);
    case Candidate(parts, finishReason) =>
      PartsSpeak(s, parts, |parts|);
  }

  lemma {:induction false} SomeStopSnoc(chunks: seq<Chunk>, chunk: Chunk)
    ensures SomeStop(chunks + [chunk]) <==> SomeStop(chunks) || Stops(chunk)
  {
    var all := chunks + [chunk];
    assert all[|chunks|] == chunk && forall i :: 0 <= i < |chunks| ==> all[i] == chunks[i];
  }

  lemma {:induction false} ChunksSpeak(model: string, chunks: seq<Chunk>, k: nat)
    requires k <= |chunks|
    ensures var s := OnChunks(model, chunks, k);
      Spoken(s.out) == Heard(chunks[..k]) && (s.broken || s.stopped <==> SomeStop(chunks[..k]))
  {
    hide OnChunk, Heard, Says, Stops, Spoken;
    if k == 0 {
      BeginSaysNothing(model, chunks);
    } else {
      ChunksSpeak(model, chunks, k - 1);
      var s, front, chunk := OnChunks(model, chunks, k - 1), chunks[..k - 1], chunks[k - 1];
      assert chunks[..k] == front + [chunk];
      HeardSnoc(front, chunk);
      SomeStopSnoc(front, chunk);
      hide SomeStop;
      if !s.broken && !s.stopped {
        ChunkSpeaks(s, chunk);
      }
    }
  }

  lemma {:induction false} BeginSaysNothing(model: string, chunks: seq<Chunk>)
    ensures Spoken(Begin(model).out) == [] == Heard(chunks[..0]) && !Begin(model).broken && !Begin(model).stopped
  {
    assert Spoken(Nothing) == [];
  }

  /** The frames carry exactly the text, thoughts and calls of the chunks read, in their order. */
  lemma {:induction false} EverythingIsSaid(model: string, chunks: seq<Chunk>)
    ensures Spoken(Translate(model, chunks).out) == Heard(chunks)
  {
    hide OnChunks, Heard;
    var s := OnChunks(model, chunks, |chunks|);
    ChunksSpeak(model, chunks, |chunks|);
    assert chunks[..|chunks|] == chunks;
    ClosingIsSilent(s);
    var u := Emit(CloseBlocks(s), Finish(Unified(s.sawTool, s.finishRaw), s.finishRaw));
    assert Spoken(u.out) == Spoken(s.out);
  }
}
