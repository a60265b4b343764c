/** A Responses request's input items: the replayed history, each tool result
    under the id of the call it answers. */
module ResponsesLowering {
  import opened Wrappers
  import opened Protocols
  import opened Messages
  import opened PreparedHistory
  import opened Replay
  import opened Sequences

  /** What a binding's route takes, and what it knows of the bytes it is given:
      the live file ids of the documents it uploaded, and the frame counts of
      those images that are well-formed GIFs. */
  datatype Config = Config(
    openaiEndpoint: bool,
    namespace: Option<string>,
    supportsDocumentInput: bool,
    fileIds: map<string, string>,
    gifFrames: map<string, nat>)

  datatype SentDetail = Auto | Low | High

  /** One input part as the Responses vocabulary has it. */
  datatype InputContent =
    | TextContent(text: string)
    | ImageContent(detail: SentDetail, imageUrl: string)
    | FileIdContent(fileId: string)
    | FileDataContent(filename: string, fileData: string)

  /** A result's text, or its parts in order when it carries more than text. */
  datatype ToolOutput = TextOutput(text: string) | PartsOutput(parts: seq<InputContent>)

  datatype Item =
    | CallOutputItem(callId: Option<string>, output: ToolOutput)
    | DeveloperItem(text: string)
    | UserTextItem(text: string)
    | UserItem(parts: seq<InputContent>)
    | MessageItem(id: string, status: EvidenceStatus, phase: Option<Option<Phase>>, segments: seq<Segment>)
    | AssistantTextItem(text: string)
    | ReasoningItem(
        id: string,
        summary: seq<string>,
        thinking: Option<seq<string>>,
        reasoningStatus: Option<EvidenceStatus>,
        encryptedContent: Option<Option<string>>)
    | CallItem(
        callId: Option<string>,
        name: string,
        namespace: Option<string>,
        arguments: string,
        itemId: Option<string>,
        completed: bool)

  datatype LowerError =
    | ForeignEvidence
    | RefusalWithoutEvidence
    | ReasoningWithoutEvidence
    | UnsupportedImage
    | DocumentRefused
    | AudioOrVideo
    | UncoveredPrefix

  type Lowered = Result<seq<Item>, LowerError>

  function SystemUpdateText(text: string): string {
    "<system-update>\n" + text + "\n</system-update>"
  }

  function JoinTexts(texts: seq<string>): string {
    if texts == [] then "" else texts[0] + JoinTexts(texts[1..])
  }

  // ----- input parts -----

  /** Lower case, as far as the four image types can tell: no other letter
      lowers to one of theirs. */
  function LowerCase(text: string): string {
    seq(|text|, i requires 0 <= i < |text| =>
      if 'A' <= text[i] <= 'Z' then (text[i] as int + 32) as char else text[i])
  }

  /** PNG, JPEG, WEBP, or a GIF of a single frame. */
  predicate TakesImage(mimeType: string, base64: string, config: Config) {
    var lower := LowerCase(mimeType);
    || lower == "image/png"
    || lower == "image/jpeg"
    || lower == "image/webp"
    || (lower == "image/gif" && base64 in config.gifFrames && config.gifFrames[base64] == 1)
  }

  function DetailSent(detail: Option<Detail>): SentDetail {
    match detail
    case None => Auto
    case Some(LowDetail) => Low
    case Some(MediumDetail) => Auto
    case Some(HighDetail) => High
    case Some(UltraHighDetail) => High
  }

  function DataUrl(mimeType: string, base64: string): string {
    "data:" + mimeType + ";base64," + base64
  }

  /** What follows the last slash; the whole text when there is none. */
  function AfterSlash(text: string): string {
    if '/' !in text then text else AfterSlash(text[1..])
  }

  function LowerInput(part: InputPart, config: Config): Result<InputContent, LowerError> {
    match part
    case InputText(text) => Ok(TextContent(text))
    case InputImage(mimeType, base64, detail) =>
      if TakesImage(mimeType, base64, config)
      then Ok(ImageContent(DetailSent(detail), DataUrl(LowerCase(mimeType), base64)))
      else Err(UnsupportedImage)
    case InputMedia(Document, mimeType, base64) =>
      if !config.supportsDocumentInput then Err(DocumentRefused)
      else if base64 in config.fileIds then Ok(FileIdContent(config.fileIds[base64]))
      else Ok(FileDataContent("document." + AfterSlash(mimeType), DataUrl(mimeType, base64)))
    case InputMedia(_, _, _) => Err(AudioOrVideo)
  }

  /** The parts in order, or the first refusal among them. */
  function LowerInputs(parts: seq<InputPart>, config: Config): Result<seq<InputContent>, LowerError> {
    if parts == [] then Ok([])
    else
      match LowerInput(parts[0], config)
      case Err(error) => Err(error)
      case Ok(first) =>
        match LowerInputs(parts[1..], config)
        case Err(error) => Err(error)
        case Ok(rest) => Ok([first] + rest)
  }

  function OutputOf(result: ToolResult, config: Config): Result<ToolOutput, LowerError> {
    var content := result.content;
    if forall i | 0 <= i < |content| :: content[i].InputText? then
      var text := JoinTexts(seq(|content|, i requires 0 <= i < |content| => content[i].text));
      Ok(TextOutput(if result.status.Error? then "Error: " + text else text))
    else
      match LowerInputs(content, config)
      case Err(error) => Err(error)
      case Ok(parts) =>
        Ok(PartsOutput((if result.status.Error? then [TextContent("Error: ")] else []) + parts))
  }

  // ----- messages -----

  function LowerResult(result: ToolResult, callIds: seq<string>, config: Config): Result<Item, LowerError> {
    var ordinal := result.callOrdinal;
    match OutputOf(result, config)
    case Err(error) => Err(error)
    case Ok(output) =>
      Ok(CallOutputItem(if 0 <= ordinal < |callIds| then Some(callIds[ordinal]) else None, output))
  }

  /** One assistant part as one item; `own` when the turn's model wrote it. */
  function LowerPart(part: OutputPart, own: bool, config: Config): Result<Item, LowerError> {
    if EvidenceKindOf(part).Some? && !own then Err(ForeignEvidence)
    else
      match part
      case MessagePart(segments, Some(ResponsesMessage(id, status, phase))) =>
        Ok(MessageItem(id, status, phase, segments))
      case MessagePart(segments, None) =>
        if exists i | 0 <= i < |segments| :: segments[i].RefusalSegment? then Err(RefusalWithoutEvidence)
        else
          Ok(AssistantTextItem(JoinTexts(seq(|segments|, i requires 0 <= i < |segments| => segments[i].text))))
      case ReasoningPart(summary, thinking, Some(ResponsesReasoning(id, encrypted, status))) =>
        Ok(ReasoningItem(id, summary, thinking, status, encrypted))
      case ReasoningPart(_, _, _) => Err(ReasoningWithoutEvidence)
      case LocalCallPart(id, name, arguments, evidence) =>
        match evidence
        case None => Ok(CallItem(Some(id), name, config.namespace, arguments, None, false))
        case Some(ResponsesFunctionCall(itemId, completed)) =>
          Ok(CallItem(Some(id), name, config.namespace, arguments, itemId, completed))
  }

  /** Items before items, unless either side failed; the first failure wins. */
  function Then(first: Lowered, second: Lowered): Lowered {
    if first.Err? then first else if second.Err? then second else Ok(first.value + second.value)
  }

  function One(item: Result<Item, LowerError>): Lowered {
    match item
    case Err(error) => Err(error)
    case Ok(value) => Ok([value])
  }

  function LowerContent(content: seq<OutputPart>, own: bool, config: Config): Lowered {
    if content == [] then Ok([])
    else Then(One(LowerPart(content[0], own, config)), LowerContent(content[1..], own, config))
  }

  function LowerGroup(results: seq<ToolResult>, callIds: seq<string>, config: Config): Lowered {
    if results == [] then Ok([])
    else Then(One(LowerResult(results[0], callIds, config)), LowerGroup(results[1..], callIds, config))
  }

  function LowerUser(input: seq<InputPart>, config: Config): Lowered {
    match LowerInputs(input, config)
    case Err(error) => Err(error)
    case Ok(parts) => Ok([UserItem(parts)])
  }

  function LowerMessage(message: Message, turn: ModelOrigin, config: Config, callIds: seq<string>): Lowered {
    match message
    case Tool(results) => LowerGroup(results, callIds, config)
    case System(text) =>
      Ok([if config.openaiEndpoint then DeveloperItem(text) else UserTextItem(SystemUpdateText(text))])
    case User(input) => LowerUser(input, config)
    case Assistant(origin, content) => LowerContent(content, SameModelOrigin(origin, turn), config)
  }

  function CallIds(content: seq<OutputPart>): seq<string> {
    var calls := LocalCalls(content);
    seq(|calls|, i requires 0 <= i < |calls| => calls[i].providerCallId)
  }

  /** The ids a message leaves for the next tool group. */
  function IdsAfter(message: Message, callIds: seq<string>): seq<string> {
    match message
    case Tool(_) => callIds
    case Assistant(_, content) => CallIds(content)
    case _ => []
  }

  function LowerAll(messages: seq<Message>, turn: ModelOrigin, config: Config, callIds: seq<string>): Lowered
    decreases |messages|
  {
    if messages == [] then Ok([])
    else
      Then(LowerMessage(messages[0], turn, config, callIds),
           LowerAll(messages[1..], turn, config, IdsAfter(messages[0], callIds)))
  }

  function IdsLeft(messages: seq<Message>, callIds: seq<string>): seq<string>
    decreases |messages|
  {
    if messages == [] then callIds else IdsLeft(messages[1..], IdsAfter(messages[0], callIds))
  }

  lemma ThenAssociative(a: Lowered, b: Lowered, c: Lowered)
    ensures Then(Then(a, b), c) == Then(a, Then(b, c))
  {
    if a.Ok? && b.Ok? && c.Ok? {
      ConcatAssociative(a.value, b.value, c.value);
    }
  }

  lemma ThenNothing(a: Lowered)
    ensures Then(a, Ok([])) == a && Then(Ok([]), a) == a
  {
    if a.Ok? {
      assert a.value + [] == a.value && [] + a.value == a.value;
    }
  }

  // ----- the loops -----

  /** Replays a message's calls without lowering it. */
  method ReplayCallIds(message: Message, callIds: seq<string>) returns (left: seq<string>)
    ensures left == IdsAfter(message, callIds)
  {
    left := callIds;
    if message.Tool? {
      return;
    }
    left := [];
    if !message.Assistant? {
      return;
    }
    for i := 0 to |message.content|
      invariant left == CallIds(message.content[..i])
    {
      var part := message.content[i];
      CallIdsNext(message.content, i);
      if part.LocalCallPart? {
        left := left + [part.providerCallId];
      }
    }
    assert message.content[..|message.content|] == message.content;
  }

  lemma CallIdsNext(content: seq<OutputPart>, n: nat)
    requires n < |content|
    ensures CallIds(content[..n + 1]) ==
            CallIds(content[..n]) + if content[n].LocalCallPart? then [content[n].providerCallId] else []
  {
    assert content[..n + 1] == content[..n] + [content[n]];
    LocalCallsConcat(content[..n], [content[n]]);
    assert LocalCalls([content[n]]) == if content[n].LocalCallPart? then [content[n]] else [];
  }

  /** Lowers one assistant's parts; fails at the first it cannot carry. */
  method LowerParts(content: seq<OutputPart>, own: bool, config: Config)
    returns (lowered: Lowered, callIds: seq<string>)
    ensures lowered == LowerContent(content, own, config)
    ensures lowered.Ok? ==> callIds == CallIds(content)
  {
    var input: seq<Item> := [];
    callIds := [];
    ThenNothing(LowerContent(content, own, config));
    for i := 0 to |content|
      invariant callIds == CallIds(content[..i])
      invariant LowerContent(content, own, config) == Then(Ok(input), LowerContent(content[i..], own, config))
    {
      var part := content[i];
      CallIdsNext(content, i);
      assert content[i..][0] == part && content[i..][1..] == content[i + 1..];
      if EvidenceKindOf(part).Some? && !own {
        return Err(ForeignEvidence), callIds;
      }
      var item := LowerPart(part, own, config);
      if item.Err? {
        return Err(item.error), callIds;
      }
      ThenAssociative(Ok(input), Ok([item.value]), LowerContent(content[i + 1..], own, config));
      if part.LocalCallPart? {
        callIds := callIds + [part.providerCallId];
      }
      input := input + [item.value];
    }
    ThenNothing(Ok(input));
    assert content[..|content|] == content;
    lowered := Ok(input);
  }

  /** Lowers a tool group's results; fails at the first with a part the route
      does not take. */
  method LowerResults(results: seq<ToolResult>, callIds: seq<string>, config: Config) returns (lowered: Lowered)
    ensures lowered == LowerGroup(results, callIds, config)
  {
    var input: seq<Item> := [];
    ThenNothing(LowerGroup(results, callIds, config));
    for i := 0 to |results|
      invariant LowerGroup(results, callIds, config) == Then(Ok(input), LowerGroup(results[i..], callIds, config))
    {
      assert results[i..][0] == results[i] && results[i..][1..] == results[i + 1..];
      var item := LowerResult(results[i], callIds, config);
      if item.Err? {
        return Err(item.error);
      }
      ThenAssociative(Ok(input), Ok([item.value]), LowerGroup(results[i + 1..], callIds, config));
      input := input + [item.value];
    }
    ThenNothing(Ok(input));
    lowered := Ok(input);
  }

  /** The messages as input items, against the ids a covered prefix left. */
  method LowerMessages(turn: ModelOrigin, messages: seq<Message>, config: Config, seed: seq<string>)
    returns (lowered: Lowered)
    ensures lowered == LowerAll(Replayed(messages, turn), turn, config, seed)
  {
    var history := ReplayableHistory(messages, turn);
    var input: seq<Item> := [];
    var callIds := seed;
    ghost var whole := LowerAll(history, turn, config, seed);
    ThenNothing(whole);
    for i := 0 to |history|
      invariant whole == Then(Ok(input), LowerAll(history[i..], turn, config, callIds))
    {
      var message := history[i];
      assert history[i..][0] == message && history[i..][1..] == history[i + 1..];
      ghost var here := LowerMessage(message, turn, config, callIds);
      ghost var rest := LowerAll(history[i + 1..], turn, config, IdsAfter(message, callIds));
      assert whole == Then(Ok(input), Then(here, rest));
      ThenAssociative(Ok(input), here, rest);
      var items: seq<Item>;
      match message {
        case Tool(results) =>
          var lowering := LowerResults(results, callIds, config);
          if lowering.Err? {
            return lowering;
          }
          items := lowering.value;
        case System(text) =>
          callIds := [];
          items := [if config.openaiEndpoint then DeveloperItem(text) else UserTextItem(SystemUpdateText(text))];
        case User(parts) =>
          callIds := [];
          var content := LowerInputs(parts, config);
          if content.Err? {
            return Err(content.error);
          }
          items := [UserItem(content.value)];
        case Assistant(origin, content) =>
          var own := SameModelOrigin(origin, turn);
          var lowering, ids := LowerParts(content, own, config);
          if lowering.Err? {
            return lowering;
          }
          callIds := ids;
          items := lowering.value;
      }
      assert here == Ok(items);
      input := input + items;
    }
    ThenNothing(Ok(input));
    lowered := Ok(input);
  }
}
