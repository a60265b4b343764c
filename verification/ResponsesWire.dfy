/** What each item of a Responses request tells, said on the fields of the item
    and of what it was lowered from. */
module ResponsesWire {
  import opened Wrappers
  import opened Protocols
  import opened Messages
  import opened Replay
  import opened ReplayOrder
  import opened ResponsesLowering
  import opened Sequences

  // ----- texts in order -----

  predicate AllText(parts: seq<InputPart>) {
    forall i | 0 <= i < |parts| :: parts[i].InputText?
  }

  /** The parts' texts, the last one last. */
  function TextOfParts(parts: seq<InputPart>): string
    requires AllText(parts)
  {
    if parts == [] then "" else TextOfParts(parts[..|parts| - 1]) + parts[|parts| - 1].text
  }

  /** The segments' texts, the last one last. */
  function TextOfSegments(segments: seq<Segment>): string {
    if segments == [] then "" else TextOfSegments(segments[..|segments| - 1]) + segments[|segments| - 1].text
  }

  lemma {:induction false} JoinTextsNext(texts: seq<string>, text: string)
    ensures JoinTexts(texts + [text]) == JoinTexts(texts) + text
  {
    if texts == [] {
      assert [text][1..] == [] && text + "" == text && "" + text == text;
    } else {
      JoinTextsNext(texts[1..], text);
      assert (texts + [text])[1..] == texts[1..] + [text];
      ConcatAssociative(texts[0], JoinTexts(texts[1..]), text);
    }
  }

  lemma {:induction false} PartsJoin(parts: seq<InputPart>)
    requires AllText(parts)
    ensures JoinTexts(seq(|parts|, i requires 0 <= i < |parts| => parts[i].text)) == TextOfParts(parts)
  {
    if parts != [] {
      var before := parts[..|parts| - 1];
      PartsJoin(before);
      var texts := seq(|before|, i requires 0 <= i < |before| => before[i].text);
      assert seq(|parts|, i requires 0 <= i < |parts| => parts[i].text) == texts + [parts[|parts| - 1].text];
      JoinTextsNext(texts, parts[|parts| - 1].text);
    }
  }

  lemma {:induction false} SegmentsJoin(segments: seq<Segment>)
    ensures JoinTexts(seq(|segments|, i requires 0 <= i < |segments| => segments[i].text)) == TextOfSegments(segments)
  {
    if segments != [] {
      var before := segments[..|segments| - 1];
      SegmentsJoin(before);
      var texts := seq(|before|, i requires 0 <= i < |before| => before[i].text);
      assert seq(|segments|, i requires 0 <= i < |segments| => segments[i].text)
          == texts + [segments[|segments| - 1].text];
      JoinTextsNext(texts, segments[|segments| - 1].text);
    }
  }

  // ----- one input part -----

  /** The same text but for the case of its letters, of which `lower` has none
      in upper case. */
  predicate InLowerCase(text: string, lower: string) {
    && |lower| == |text|
    && forall i | 0 <= i < |text| ::
         if 'A' <= text[i] <= 'Z' then lower[i] as int == text[i] as int + 32 else lower[i] == text[i]
  }

  /** One of the formats the route takes, in whatever case it is named. */
  predicate IsTakenImage(mimeType: string, base64: string, config: Config) {
    || InLowerCase(mimeType, "image/png")
    || InLowerCase(mimeType, "image/jpeg")
    || InLowerCase(mimeType, "image/webp")
    || (InLowerCase(mimeType, "image/gif") && base64 in config.gifFrames && config.gifFrames[base64] == 1)
  }

  /** `last` is what follows the last slash of `text`, or all of a text without. */
  predicate IsLastSegment(text: string, last: string) {
    && '/' !in last
    && |last| <= |text|
    && text[|text| - |last|..] == last
    && (|last| < |text| ==> text[|text| - |last| - 1] == '/')
  }

  /** What a piece of content must be to tell of a part. */
  predicate PartTold(content: InputContent, part: InputPart, config: Config) {
    match part
    case InputText(text) => content.TextContent? && content.text == text
    case InputImage(mimeType, base64, detail) =>
      && content.ImageContent?
      && IsTakenImage(mimeType, base64, config)
      && (content.detail.Auto? <==> detail == None || detail == Some(MediumDetail))
      && (content.detail.Low? <==> detail == Some(LowDetail))
      && (content.detail.High? <==> detail == Some(HighDetail) || detail == Some(UltraHighDetail))
      && var head := |"data:"| + |mimeType|;
         && head <= |content.imageUrl|
         && content.imageUrl[..|"data:"|] == "data:"
         && InLowerCase(mimeType, content.imageUrl[|"data:"|..head])
         && content.imageUrl[head..] == ";base64," + base64
    case InputMedia(kind, mimeType, base64) =>
      && kind.Document?
      && config.supportsDocumentInput
      && if base64 in config.fileIds then content.FileIdContent? && content.fileId == config.fileIds[base64]
         else
           && content.FileDataContent?
           && content.fileData == "data:" + mimeType + ";base64," + base64
           && |content.filename| >= |"document."|
           && content.filename[..|"document."|] == "document."
           && IsLastSegment(mimeType, content.filename[|"document."|..])
  }

  lemma {:induction false} LowerCaseUnique(text: string, lower: string)
    ensures InLowerCase(text, LowerCase(text))
    ensures InLowerCase(text, lower) <==> lower == LowerCase(text)
  {
    if InLowerCase(text, lower) {
      forall i | 0 <= i < |text| ensures lower[i] == LowerCase(text)[i] {
        assert lower[i] as int == LowerCase(text)[i] as int;
      }
    }
  }

  lemma {:induction false} TakesImageIff(mimeType: string, base64: string, config: Config)
    ensures TakesImage(mimeType, base64, config) <==> IsTakenImage(mimeType, base64, config)
  {
    LowerCaseUnique(mimeType, "image/png");
    LowerCaseUnique(mimeType, "image/jpeg");
    LowerCaseUnique(mimeType, "image/webp");
    LowerCaseUnique(mimeType, "image/gif");
  }

  lemma {:induction false} AfterSlashIsLast(text: string)
    ensures IsLastSegment(text, AfterSlash(text))
  {
    if '/' in text {
      AfterSlashIsLast(text[1..]);
      var last := AfterSlash(text[1..]);
      assert text == [text[0]] + text[1..];
      assert text[|text| - |last|..] == text[1..][|text| - 1 - |last|..];
      if |last| < |text| - 1 {
        assert text[|text| - |last| - 1] == text[1..][|text| - 1 - |last| - 1];
      } else {
        assert last == text[1..];
      }
    }
  }

  lemma {:induction false} ImageTold(mimeType: string, base64: string, detail: Option<Detail>, config: Config)
    requires TakesImage(mimeType, base64, config)
    ensures PartTold(ImageContent(DetailSent(detail), DataUrl(LowerCase(mimeType), base64)),
                     InputImage(mimeType, base64, detail), config)
  {
    TakesImageIff(mimeType, base64, config);
    var lower := LowerCase(mimeType);
    LowerCaseUnique(mimeType, lower);
    var url, n := DataUrl(lower, base64), |"data:"|;
    assert url == "data:" + lower + (";base64," + base64);
    assert url[..n] == "data:" && url[n..n + |mimeType|] == lower && url[n + |mimeType|..] == ";base64," + base64;
  }

  lemma {:induction false} DocumentTold(mimeType: string, base64: string, config: Config)
    requires config.supportsDocumentInput && base64 !in config.fileIds
    ensures PartTold(FileDataContent("document." + AfterSlash(mimeType), DataUrl(mimeType, base64)),
                     InputMedia(Document, mimeType, base64), config)
  {
    AfterSlashIsLast(mimeType);
    var name := "document." + AfterSlash(mimeType);
    assert name[..|"document."|] == "document." && name[|"document."|..] == AfterSlash(mimeType);
  }

  /** A part that lowers is told by its content. */
  lemma {:induction false} LoweredPartTold(part: InputPart, config: Config)
    requires LowerInput(part, config).Ok?
    ensures PartTold(LowerInput(part, config).value, part, config)
  {
    match part
    case InputText(_) =>
    case InputImage(mimeType, base64, detail) => ImageTold(mimeType, base64, detail, config);
    case InputMedia(_, mimeType, base64) =>
      if base64 !in config.fileIds {
        DocumentTold(mimeType, base64, config);
      }
  }

  /** One content a part, in order, each telling its own. */
  predicate PartsTold(contents: seq<InputContent>, parts: seq<InputPart>, config: Config) {
    && |contents| == |parts|
    && forall i | 0 <= i < |parts| :: PartTold(contents[i], parts[i], config)
  }

  lemma {:induction false} LoweredPartsTold(parts: seq<InputPart>, config: Config)
    requires LowerInputs(parts, config).Ok?
    ensures PartsTold(LowerInputs(parts, config).value, parts, config)
  {
    if parts != [] {
      LoweredPartTold(parts[0], config);
      LoweredPartsTold(parts[1..], config);
      assert parts == [parts[0]] + parts[1..];
    }
  }

  // ----- one result -----

  /** A result of texts alone is their texts in order; any other is its parts in
      order. An error is told by one mark in front. */
  predicate ResultTold(output: ToolOutput, result: ToolResult, config: Config) {
    if AllText(result.content) then
      output.TextOutput? &&
      output.text == (if result.status.Error? then "Error: " else "") + TextOfParts(result.content)
    else
      output.PartsOutput? &&
      if result.status.Error? then
        && |output.parts| > 0 && output.parts[0].TextContent? && output.parts[0].text == "Error: "
        && PartsTold(output.parts[1..], result.content, config)
      else PartsTold(output.parts, result.content, config)
  }

  lemma {:induction false} OutputTellsResult(result: ToolResult, config: Config)
    requires OutputOf(result, config).Ok?
    ensures ResultTold(OutputOf(result, config).value, result, config)
  {
    var content := result.content;
    if AllText(content) {
      PartsJoin(content);
      assert "" + TextOfParts(content) == TextOfParts(content);
    } else {
      LoweredPartsTold(content, config);
      var parts := LowerInputs(content, config).value;
      assert ([TextContent("Error: ")] + parts)[1..] == parts;
      assert [] + parts == parts;
    }
  }

  // ----- every item -----

  /** What a history has to say, one by one: a user's input, an instruction, each
      part of an assistant's content, each result of a group. */
  datatype Utterance =
    | Asking(input: seq<InputPart>)
    | Instructing(text: string)
    | Speaking(part: OutputPart)
    | Resulting(result: ToolResult)

  function UtterancesOf(message: Message): seq<Utterance> {
    match message
    case User(input) => [Asking(input)]
    case System(text) => [Instructing(text)]
    case Assistant(_, content) => seq(|content|, i requires 0 <= i < |content| => Speaking(content[i]))
    case Tool(results) => seq(|results|, i requires 0 <= i < |results| => Resulting(results[i]))
  }

  function Utterances(messages: seq<Message>): seq<Utterance> {
    if messages == [] then [] else UtterancesOf(messages[0]) + Utterances(messages[1..])
  }

  /** What an item must be to tell of an assistant's part. */
  predicate SpeechTold(item: Item, part: OutputPart, config: Config) {
    match part
    case MessagePart(segments, None) => item.AssistantTextItem? && item.text == TextOfSegments(segments)
    case MessagePart(segments, Some(evidence)) =>
      && item.MessageItem? && item.id == evidence.itemId && item.status == evidence.status
      && item.phase == evidence.phase && item.segments == segments
    case ReasoningPart(summary, thinking, evidence) =>
      && evidence.Some? && evidence.value.ResponsesReasoning?
      && item.ReasoningItem? && item.id == evidence.value.itemId && item.summary == summary
      && item.thinking == thinking && item.reasoningStatus == evidence.value.status
      && item.encryptedContent == evidence.value.encryptedContent
    case LocalCallPart(id, name, arguments, evidence) =>
      && item.CallItem? && item.callId == Some(id) && item.name == name && item.arguments == arguments
      && item.namespace == config.namespace
      && (if evidence.Some? then item.itemId == evidence.value.itemId && item.completed == evidence.value.completed
          else item.itemId == None && !item.completed)
  }

  predicate Told(item: Item, utterance: Utterance, config: Config) {
    match utterance
    case Asking(input) => item.UserItem? && PartsTold(item.parts, input, config)
    case Instructing(text) =>
      if config.openaiEndpoint then item.DeveloperItem? && item.text == text
      else item.UserTextItem? && item.text == "<system-update>\n" + text + "\n</system-update>"
    case Speaking(part) => SpeechTold(item, part, config)
    case Resulting(result) => item.CallOutputItem? && ResultTold(item.output, result, config)
  }

  predicate AllTold(items: seq<Item>, utterances: seq<Utterance>, config: Config) {
    && |items| == |utterances|
    && forall k | 0 <= k < |items| :: Told(items[k], utterances[k], config)
  }

  lemma FirstTold(
    item: Item, items: seq<Item>, utterance: Utterance, utterances: seq<Utterance>, config: Config)
    requires Told(item, utterance, config) && AllTold(items, utterances, config)
    ensures AllTold([item] + items, [utterance] + utterances, config)
  {
  }

  lemma {:induction false} ContentTold(content: seq<OutputPart>, own: bool, config: Config, origin: Option<ModelOrigin>)
    requires LowerContent(content, own, config).Ok?
    ensures AllTold(LowerContent(content, own, config).value, UtterancesOf(Assistant(origin, content)), config)
  {
    if content != [] {
      ContentTold(content[1..], own, config, origin);
      var item, part := LowerPart(content[0], own, config).value, content[0];
      if part.MessagePart? {
        SegmentsJoin(part.segments);
      }
      assert Told(item, Speaking(part), config);
      FirstTold(item, LowerContent(content[1..], own, config).value, Speaking(part),
                UtterancesOf(Assistant(origin, content[1..])), config);
      assert UtterancesOf(Assistant(origin, content)) ==
             [Speaking(part)] + UtterancesOf(Assistant(origin, content[1..]));
    }
  }

  lemma {:induction false} GroupTold(results: seq<ToolResult>, callIds: seq<string>, config: Config)
    requires LowerGroup(results, callIds, config).Ok?
    ensures AllTold(LowerGroup(results, callIds, config).value, UtterancesOf(Tool(results)), config)
  {
    if results != [] {
      GroupTold(results[1..], callIds, config);
      OutputTellsResult(results[0], config);
      FirstTold(LowerResult(results[0], callIds, config).value, LowerGroup(results[1..], callIds, config).value,
                Resulting(results[0]), UtterancesOf(Tool(results[1..])), config);
      assert UtterancesOf(Tool(results)) == [Resulting(results[0])] + UtterancesOf(Tool(results[1..]));
    }
  }

  lemma {:induction false} MessageTold(message: Message, turn: ModelOrigin, config: Config, callIds: seq<string>)
    requires LowerMessage(message, turn, config, callIds).Ok?
    ensures AllTold(LowerMessage(message, turn, config, callIds).value, UtterancesOf(message), config)
  {
    match message
    case User(input) => LoweredPartsTold(input, config);
    case System(_) =>
    case Assistant(origin, content) => ContentTold(content, SameModelOrigin(origin, turn), config, origin);
    case Tool(results) => GroupTold(results, callIds, config);
  }

  /** A history that lowers is told whole and in order: one item for each of its
      utterances, and nothing else. */
  lemma {:induction false} ItemsTellHistory(
    messages: seq<Message>, turn: ModelOrigin, config: Config, callIds: seq<string>)
    requires LowerAll(messages, turn, config, callIds).Ok?
    ensures AllTold(LowerAll(messages, turn, config, callIds).value, Utterances(messages), config)
    decreases |messages|
  {
    if messages != [] {
      MessageTold(messages[0], turn, config, callIds);
      ItemsTellHistory(messages[1..], turn, config, IdsAfter(messages[0], callIds));
    }
  }

  // ----- what assistants said -----

  function SaidBy(item: Item): string {
    match item
    case AssistantTextItem(text) => text
    case MessageItem(_, _, _, segments) => TextOfSegments(segments)
    case _ => ""
  }

  /** What the request's assistant items say, evidenced or plain, in order. */
  function SaidIn(items: seq<Item>): string {
    if items == [] then "" else SaidBy(items[0]) + SaidIn(items[1..])
  }

  function TextOfAtom(atom: Atom): string {
    match atom
    case Said(_, text) => text
    case Refused(_, text) => text
    case _ => ""
  }

  /** What a transcript's assistants say, refusals too, in order. */
  function SaidText(atoms: seq<Atom>): string {
    if atoms == [] then "" else TextOfAtom(atoms[0]) + SaidText(atoms[1..])
  }

  lemma {:induction false} SaidTextConcat(a: seq<Atom>, b: seq<Atom>)
    ensures SaidText(a + b) == SaidText(a) + SaidText(b)
  {
    if a == [] {
      assert a + b == b;
    } else {
      SaidTextConcat(a[1..], b);
      assert (a + b)[1..] == a[1..] + b;
      ConcatAssociative(TextOfAtom(a[0]), SaidText(a[1..]), SaidText(b));
    }
  }

  lemma {:induction false} SaidInConcat(a: seq<Item>, b: seq<Item>)
    ensures SaidIn(a + b) == SaidIn(a) + SaidIn(b)
  {
    if a == [] {
      assert a + b == b;
    } else {
      SaidInConcat(a[1..], b);
      assert (a + b)[1..] == a[1..] + b;
      ConcatAssociative(SaidBy(a[0]), SaidIn(a[1..]), SaidIn(b));
    }
  }

  lemma {:induction false} SegmentsSaid(origin: Option<ModelOrigin>, segments: seq<Segment>, erase: bool)
    ensures SaidText(SegmentAtoms(origin, segments, erase)) == TextOfSegments(segments)
  {
    if segments != [] {
      var before, last := segments[..|segments| - 1], segments[|segments| - 1];
      SegmentsSaid(origin, before, erase);
      var atom := if last.TextSegment? || erase then Said(origin, last.text) else Refused(origin, last.text);
      assert SegmentAtoms(origin, segments, erase) == SegmentAtoms(origin, before, erase) + [atom];
      SaidTextConcat(SegmentAtoms(origin, before, erase), [atom]);
      assert SaidText([atom]) == last.text;
    }
  }

  lemma {:induction false} NoneSaid(items: seq<Item>, atoms: seq<Atom>)
    requires forall i | 0 <= i < |items| :: !items[i].AssistantTextItem? && !items[i].MessageItem?
    requires forall i | 0 <= i < |atoms| :: !atoms[i].Said? && !atoms[i].Refused?
    ensures SaidIn(items) == "" && SaidText(atoms) == ""
    decreases |items| + |atoms|
  {
    if items != [] {
      NoneSaid(items[1..], atoms);
    } else if atoms != [] {
      NoneSaid(items, atoms[1..]);
    }
  }

  lemma {:induction false} PartSaid(origin: Option<ModelOrigin>, part: OutputPart, erase: bool)
    ensures SaidText(PartAtoms(origin, part, erase)) == if part.MessagePart? then TextOfSegments(part.segments) else ""
  {
    if part.MessagePart? {
      SegmentsSaid(origin, part.segments, erase);
      var mark := if erase || part.messageEvidence.None? then [] else [MessageMark(origin, part.messageEvidence.value)];
      SaidTextConcat(SegmentAtoms(origin, part.segments, erase), mark);
      NoneSaid([], mark);
    } else {
      NoneSaid([], PartAtoms(origin, part, erase));
    }
  }

  /** An item that tells of a part says what the part says. */
  lemma SpeechSaid(item: Item, part: OutputPart, config: Config)
    requires SpeechTold(item, part, config)
    ensures SaidBy(item) == if part.MessagePart? then TextOfSegments(part.segments) else ""
  {
  }

  lemma {:induction false} ContentSaid(
    items: seq<Item>, content: seq<OutputPart>, config: Config, origin: Option<ModelOrigin>)
    requires AllTold(items, UtterancesOf(Assistant(origin, content)), config)
    ensures SaidIn(items) == SaidText(ContentAtoms(origin, content, false))
  {
    if content != [] {
      var told, rest := UtterancesOf(Assistant(origin, content)), UtterancesOf(Assistant(origin, content[1..]));
      assert told == [Speaking(content[0])] + rest;
      assert Told(items[0], told[0], config);
      forall k | 0 <= k < |rest| ensures Told(items[1..][k], rest[k], config) {
        assert Told(items[k + 1], told[k + 1], config);
      }
      ContentSaid(items[1..], content[1..], config, origin);
      SpeechSaid(items[0], content[0], config);
      PartSaid(origin, content[0], false);
      SaidTextConcat(PartAtoms(origin, content[0], false), ContentAtoms(origin, content[1..], false));
    }
  }

  lemma {:induction false} MessageSaid(message: Message, turn: ModelOrigin, config: Config, callIds: seq<string>)
    requires LowerMessage(message, turn, config, callIds).Ok?
    ensures SaidIn(LowerMessage(message, turn, config, callIds).value) == SaidText(MessageAtoms(message, false))
  {
    var items := LowerMessage(message, turn, config, callIds).value;
    MessageTold(message, turn, config, callIds);
    if message.Assistant? {
      ContentSaid(items, message.content, config, message.origin);
    } else {
      forall i | 0 <= i < |items| ensures !items[i].AssistantTextItem? && !items[i].MessageItem? {
        assert Told(items[i], UtterancesOf(message)[i], config);
      }
      NoneSaid(items, MessageAtoms(message, false));
    }
  }

  lemma {:induction false} HistorySaid(messages: seq<Message>, turn: ModelOrigin, config: Config, callIds: seq<string>)
    requires LowerAll(messages, turn, config, callIds).Ok?
    ensures SaidIn(LowerAll(messages, turn, config, callIds).value) == SaidText(Transcript(messages))
    decreases |messages|
  {
    if messages != [] {
      var ids := IdsAfter(messages[0], callIds);
      MessageSaid(messages[0], turn, config, callIds);
      HistorySaid(messages[1..], turn, config, ids);
      SaidInConcat(LowerMessage(messages[0], turn, config, callIds).value,
                   LowerAll(messages[1..], turn, config, ids).value);
      SaidTextConcat(MessageAtoms(messages[0], false), Transcript(messages[1..]));
    }
  }

  lemma {:induction false} ErasingKeepsText(origin: Option<ModelOrigin>, content: seq<OutputPart>)
    ensures SaidText(ContentAtoms(origin, content, true)) == SaidText(ContentAtoms(origin, content, false))
  {
    if content != [] {
      ErasingKeepsText(origin, content[1..]);
      PartSaid(origin, content[0], true);
      PartSaid(origin, content[0], false);
      SaidTextConcat(PartAtoms(origin, content[0], true), ContentAtoms(origin, content[1..], true));
      SaidTextConcat(PartAtoms(origin, content[0], false), ContentAtoms(origin, content[1..], false));
    }
  }

  lemma {:induction false} ErasedSaysAll(messages: seq<Message>, turn: ModelOrigin)
    ensures SaidText(ErasedTranscript(messages, turn)) == SaidText(Transcript(messages))
  {
    if messages != [] {
      var message, erase := messages[0], FromAnotherModel(messages[0], turn);
      ErasedSaysAll(messages[1..], turn);
      if message.Assistant? {
        ErasingKeepsText(message.origin, message.content);
      }
      SaidTextConcat(MessageAtoms(message, erase), ErasedTranscript(messages[1..], turn));
      SaidTextConcat(MessageAtoms(message, false), Transcript(messages[1..]));
    }
  }

  /** A switch loses no said text on the wire: the request's assistant items say,
      in order, every text and refusal the history's assistants said. */
  lemma SwitchLosesNoText(messages: seq<Message>, turn: ModelOrigin, config: Config, items: seq<Item>)
    requires LowerAll(Replayed(messages, turn), turn, config, []) == Ok(items)
    ensures SaidIn(items) == SaidText(ErasedTranscript(messages, turn)) == SaidText(Transcript(messages))
  {
    HistorySaid(Replayed(messages, turn), turn, config, []);
    ReplaySaysErased(messages, turn);
    ErasedSaysAll(messages, turn);
  }
}
