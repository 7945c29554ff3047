/** Flattening a prompt of messages into the item list the provider reads. */
module PromptMapping {
  import opened Wrappers
  import opened Text

  datatype Part =
    | TextPart(text: string)
    | CallPart(callId: Option<string>, name: Option<string>, arguments: string)
    | OtherPart

  datatype ToolPart = ResultPart(callId: Option<string>, output: string) | OtherResult

  /** `text` is what the content reads as when it is no list of parts. */
  datatype Message =
    | System(text: string)
    | User(text: string)
    | Assistant(parts: seq<Part>, text: string)
    | ToolResults(results: seq<ToolPart>)
    | Unknown

  datatype Item =
    | UserItem(text: string)
    | AssistantItem(text: string)
    | CallItem(callId: string, name: string, arguments: string)
    | OutputItem(callId: string, output: string)

  predicate IsText(part: Part) { part.TextPart? && part.text != "" }

  function CallOf(part: Part): Item
    requires part.CallPart?
  {
    CallItem(Or(part.callId, ""), Or(part.name, "unknown"), part.arguments)
  }

  /** Texts held back so far become one assistant item. */
  function Flush(texts: seq<string>): seq<Item> {
    if texts == [] then [] else [AssistantItem(Join(texts, ""))]
  }

  datatype Scan = Scan(items: seq<Item>, texts: seq<string>)

  /** After k parts of an assistant message: items pushed and texts still held. */
  function ScanParts(parts: seq<Part>, k: nat): Scan
    requires k <= |parts|
  {
    if k == 0 then Scan([], [])
    else
      var s, part := ScanParts(parts, k - 1), parts[k - 1];
      if IsText(part) then Scan(s.items, s.texts + [part.text])
      else if part.CallPart? then Scan(s.items + Flush(s.texts) + [CallOf(part)], [])
      else s
  }

  function AssistantItems(parts: seq<Part>, text: string): seq<Item> {
    var s := ScanParts(parts, |parts|);
    if s.texts != [] then s.items + Flush(s.texts)
    else if |parts| == 0 && text != "" then [AssistantItem(text)]
    else s.items
  }

  function OutputItems(results: seq<ToolPart>, k: nat): seq<Item>
    requires k <= |results|
  {
    if k == 0 then []
    else
      var r := results[k - 1];
      OutputItems(results, k - 1) + if r.ResultPart? then [OutputItem(Or(r.callId, ""), r.output)] else []
  }

  function ItemsOf(m: Message): seq<Item> {
    match m
    case System(_) => []
    case User(text) => [UserItem(text)]
    case Assistant(parts, text) => AssistantItems(parts, text)
    case ToolResults(results) => OutputItems(results, |results|)
    case Unknown => []
  }

  function ItemsUpto(messages: seq<Message>, k: nat): seq<Item>
    requires k <= |messages|
  {
    if k == 0 then [] else ItemsUpto(messages, k - 1) + ItemsOf(messages[k - 1])
  }

  function InstructionsUpto(messages: seq<Message>, k: nat): seq<string>
    requires k <= |messages|
  {
    if k == 0 then []
    else
      var m := messages[k - 1];
      InstructionsUpto(messages, k - 1) + if m.System? && m.text != "" then [m.text] else []
  }

  method MapAssistant(parts: seq<Part>, text: string, before: seq<Item>) returns (items: seq<Item>)
    ensures items == before + AssistantItems(parts, text)
  {
    items := before;
    var texts: seq<string> := [];
    for k := 0 to |parts|
      invariant items == before + ScanParts(parts, k).items && texts == ScanParts(parts, k).texts
    {
      var part := parts[k];
      if IsText(part) {
        texts := texts + [part.text];
        continue;
      }
      if part.CallPart? {
        if |texts| > 0 {
          items := items + [AssistantItem(Join(texts, ""))];
          texts := [];
        }
        items := items + [CallOf(part)];
      }
    }
    if |texts| > 0 {
      items := items + [AssistantItem(Join(texts, ""))];
    } else if |parts| == 0 {
      if text != "" {
        items := items + [AssistantItem(text)];
      }
    }
  }

  method MapPrompt(messages: seq<Message>) returns (instructions: Option<string>, items: seq<Item>)
    ensures items == ItemsUpto(messages, |messages|)
    ensures var system := InstructionsUpto(messages, |messages|);
      instructions == if system == [] then None else Some(Join(system, "\n\n"))
  {
    items := [];
    var system: seq<string> := [];
    for k := 0 to |messages|
      invariant items == ItemsUpto(messages, k) && system == InstructionsUpto(messages, k)
    {
      match messages[k]
      case System(text) =>
        if text != "" {
          system := system + [text];
        }
      case User(text) => items := items + [UserItem(text)];
      case Assistant(parts, text) => items := MapAssistant(parts, text, items);
      case ToolResults(results) =>
        for i := 0 to |results|
          invariant items == ItemsUpto(messages, k) + OutputItems(results, i)
        {
          var r := results[i];
          if r.ResultPart? {
            items := items + [OutputItem(Or(r.callId, ""), r.output)];
          }
        }
      case Unknown =>
    }
    instructions := if |system| > 0 then Some(Join(system, "\n\n")) else None;
  }

  // ---- Order is kept -------------------------------------------------------------------------------

  /** The prompt as a tape: whole user texts, calls and results, and the assistant's words letter by letter. */
  datatype Mark = Said(text: string) | Letter(c: char) | Called(call: Item) | Returned(output: Item)

  function Letters(s: string): (tape: seq<Mark>)
    ensures |tape| == |s|
  {
    seq(|s|, i requires 0 <= i < |s| => Letter(s[i]))
  }

  function TapeOfItem(item: Item): seq<Mark> {
    match item
    case UserItem(text) => [Said(text)]
    case AssistantItem(text) => Letters(text)
    case CallItem(_, _, _) => [Called(item)]
    case OutputItem(_, _) => [Returned(item)]
  }

  function TapeOfItems(items: seq<Item>): seq<Mark> {
    if items == [] then [] else TapeOfItems(items[..|items| - 1]) + TapeOfItem(items[|items| - 1])
  }

  function TapeOfPart(part: Part): seq<Mark> {
    match part
    case TextPart(text) => Letters(text)
    case CallPart(id, name, arguments) =>
      [Called(CallItem(if id.Some? then id.value else "", if name.Some? then name.value else "unknown", arguments))]
    case OtherPart => []
  }

  function TapeOfParts(parts: seq<Part>, k: nat): seq<Mark>
    requires k <= |parts|
  {
    if k == 0 then [] else TapeOfParts(parts, k - 1) + TapeOfPart(parts[k - 1])
  }

  /** What one message says, read off the message itself. */
  function TapeOfMessage(m: Message): seq<Mark> {
    match m
    case System(_) => []
    case User(text) => [Said(text)]
    case Assistant(parts, text) => if parts == [] then Letters(text) else TapeOfParts(parts, |parts|)
    case ToolResults(results) => TapeOfResults(results, |results|)
    case Unknown => []
  }

  function TapeOfResults(results: seq<ToolPart>, k: nat): seq<Mark>
    requires k <= |results|
  {
    if k == 0 then []
    else
      var r := results[k - 1];
      TapeOfResults(results, k - 1) +
      if r.ResultPart? then [Returned(OutputItem(if r.callId.Some? then r.callId.value else "", r.output))] else []
  }

  function TapeOfPrompt(messages: seq<Message>, k: nat): seq<Mark>
    requires k <= |messages|
  {
    if k == 0 then [] else TapeOfPrompt(messages, k - 1) + TapeOfMessage(messages[k - 1])
  }

  lemma {:induction false} TapeAppend(a: seq<Item>, b: seq<Item>)
    ensures TapeOfItems(a + b) == TapeOfItems(a) + TapeOfItems(b)
  {
    hide TapeOfItem;
    if b == [] {
      assert a + b == a;
    } else {
      assert (a + b)[..|a + b| - 1] == a + b[..|b| - 1];
      TapeAppend(a, b[..|b| - 1]);
    }
  }

  lemma {:induction false} TapeOfOne(item: Item)
    ensures TapeOfItems([item]) == TapeOfItem(item)
  {
    assert [item][..0] == [];
  }

  lemma {:induction false} JoinedLetters(texts: seq<string>, text: string)
    ensures Letters(Join(texts + [text], "")) == Letters(Join(texts, "")) + Letters(text)
  {
    JoinAppend(texts, [text], "");
    assert Join([text], "") == text;
    assert Join(texts, "") + "" == Join(texts, "");
  }

  /** Items pushed plus words still held are the parts read. */
  lemma {:induction false} ScanKeepsTape(parts: seq<Part>, k: nat)
    requires k <= |parts|
    ensures var s := ScanParts(parts, k); TapeOfItems(s.items) + Letters(Join(s.texts, "")) == TapeOfParts(parts, k)
  {
    hide TapeOfItems, Join;
    if k == 0 {
      EmptyTape();
    } else {
      ScanKeepsTape(parts, k - 1);
      var s, part := ScanParts(parts, k - 1), parts[k - 1];
      if IsText(part) {
        JoinedLetters(s.texts, part.text);
      } else if part.CallPart? {
        FlushKeepsTape(s.texts);
        TapeOfOne(CallOf(part));
        TapeAppend(s.items + Flush(s.texts), [CallOf(part)]);
        TapeAppend(s.items, Flush(s.texts));
        EmptyTape();
      }
    }
  }

  lemma {:induction false} EmptyTape()
    ensures TapeOfItems([]) == [] && Join([], "") == ""
  {
  }

  lemma {:induction false} FlushKeepsTape(texts: seq<string>)
    ensures TapeOfItems(Flush(texts)) == Letters(Join(texts, ""))
  {
    EmptyTape();
    if texts != [] {
      TapeOfOne(AssistantItem(Join(texts, "")));
    }
  }

  lemma {:induction false} MessageKeepsTape(m: Message)
    ensures TapeOfItems(ItemsOf(m)) == TapeOfMessage(m)
  {
    hide TapeOfItems, Join;
    EmptyTape();
    match m
    case System(_) =>
    case User(text) => TapeOfOne(UserItem(text));
    case Assistant(parts, text) =>
      var s := ScanParts(parts, |parts|);
      ScanKeepsTape(parts, |parts|);
      FlushKeepsTape(s.texts);
      TapeAppend(s.items, Flush(s.texts));
      TapeOfOne(AssistantItem(text));
    case ToolResults(results) => ResultsKeepTape(results, |results|);
    case Unknown =>
  }

  lemma {:induction false} ResultsKeepTape(results: seq<ToolPart>, k: nat)
    requires k <= |results|
    ensures TapeOfItems(OutputItems(results, k)) == TapeOfResults(results, k)
  {
    hide TapeOfItems;
    EmptyTape();
    if k > 0 {
      var r := results[k - 1];
      ResultsKeepTape(results, k - 1);
      if r.ResultPart? {
        TapeOfOne(OutputItem(Or(r.callId, ""), r.output));
        TapeAppend(OutputItems(results, k - 1), [OutputItem(Or(r.callId, ""), r.output)]);
      } else {
        assert OutputItems(results, k) == OutputItems(results, k - 1);
      }
    }
  }

  /** The items say what the prompt says, in the same order: no word crosses a call, and nothing is added or lost. */
  lemma {:induction false} OrderIsKept(messages: seq<Message>, k: nat)
    requires k <= |messages|
    ensures TapeOfItems(ItemsUpto(messages, k)) == TapeOfPrompt(messages, k)
  {
    hide TapeOfItems, ItemsOf;
    EmptyTape();
    if k > 0 {
      OrderIsKept(messages, k - 1);
      MessageKeepsTape(messages[k - 1]);
      TapeAppend(ItemsUpto(messages, k - 1), ItemsOf(messages[k - 1]));
    }
  }

  /** The texts of the system messages that have one, in the order of the prompt. */
  function SystemTexts(messages: seq<Message>): seq<string> {
    if messages == [] then []
    else
      match messages[0]
      case System(text) => (if text == "" then [] else [text]) + SystemTexts(messages[1..])
      case _ => SystemTexts(messages[1..])
  }

  lemma {:induction false} SystemTextsMore(messages: seq<Message>, m: Message)
    ensures SystemTexts(messages + [m]) == SystemTexts(messages) + if m.System? && m.text != "" then [m.text] else []
  {
    if messages == [] {
      assert [] + [m] == [m] && [m][1..] == [];
    } else {
      assert (messages + [m])[1..] == messages[1..] + [m];
      SystemTextsMore(messages[1..], m);
    }
  }

  /** The instructions are the system texts, none left out and none moved. */
  lemma {:induction false} InstructionsInOrder(messages: seq<Message>, k: nat)
    requires k <= |messages|
    ensures InstructionsUpto(messages, k) == SystemTexts(messages[..k])
  {
    if k > 0 {
      InstructionsInOrder(messages, k - 1);
      assert messages[..k] == messages[..k - 1] + [messages[k - 1]];
      SystemTextsMore(messages[..k - 1], messages[k - 1]);
    }
  }

  /** No empty text, and no two texts next to each other. */
  predicate Merged(items: seq<Item>) {
    && (forall i :: 0 <= i < |items| ==> items[i] != AssistantItem(""))
    && (forall i :: 0 <= i < |items| - 1 ==> !(items[i].AssistantItem? && items[i + 1].AssistantItem?))
  }

  /** Everything pushed so far ends in a call, so held texts never follow a text. */
  lemma {:induction false} ScanMerges(parts: seq<Part>, k: nat)
    requires k <= |parts|
    ensures var s := ScanParts(parts, k);
      Merged(s.items) && (s.items != [] ==> s.items[|s.items| - 1].CallItem?) &&
        (s.texts != [] ==> Join(s.texts, "") != "")
  {
    hide Join;
    if k > 0 {
      ScanMerges(parts, k - 1);
      var s, part := ScanParts(parts, k - 1), parts[k - 1];
      if IsText(part) {
        JoinedLetters(s.texts, part.text);
      }
    }
  }

  /** Within one assistant message texts are merged as far as the calls allow. */
  lemma {:induction false} TextsAreMerged(parts: seq<Part>, text: string)
    ensures Merged(AssistantItems(parts, text))
  {
    ScanMerges(parts, |parts|);
  }
}
