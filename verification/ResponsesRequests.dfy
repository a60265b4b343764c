/** What a lowered Responses request is worth: whom its results answer, when it
    can be built, and what of the history can be read back out of it. */
module ResponsesRequests {
  import opened Wrappers
  import opened Protocols
  import opened Messages
  import opened PreparedHistory
  import opened Replay
  import opened ReplayValidity
  import opened ResponsesLowering
  import opened ResponsesWire
  import opened Sequences

  // ----- results answer their calls -----

  function CallsIn(items: seq<Item>): seq<Item> {
    if items == [] then []
    else if items[0].CallItem? then [items[0]] + CallsIn(items[1..])
    else CallsIn(items[1..])
  }

  function OutputsIn(items: seq<Item>): seq<Item> {
    if items == [] then []
    else if items[0].CallOutputItem? then [items[0]] + OutputsIn(items[1..])
    else OutputsIn(items[1..])
  }

  lemma {:induction false} CallsInConcat(a: seq<Item>, b: seq<Item>)
    ensures CallsIn(a + b) == CallsIn(a) + CallsIn(b)
  {
    if a == [] {
      assert a + b == b;
    } else {
      CallsInConcat(a[1..], b);
      assert (a + b)[1..] == a[1..] + b;
      ConcatAssociative([a[0]], CallsIn(a[1..]), CallsIn(b));
    }
  }

  lemma {:induction false} OutputsInConcat(a: seq<Item>, b: seq<Item>)
    ensures OutputsIn(a + b) == OutputsIn(a) + OutputsIn(b)
  {
    if a == [] {
      assert a + b == b;
    } else {
      OutputsInConcat(a[1..], b);
      assert (a + b)[1..] == a[1..] + b;
      ConcatAssociative([a[0]], OutputsIn(a[1..]), OutputsIn(b));
    }
  }

  /** The call an item makes is the pair's, byte for byte. */
  predicate Makes(item: Item, pair: Exchanged) {
    && item.CallItem?
    && item.callId == Some(pair.providerCallId)
    && item.name == pair.name
    && item.arguments == pair.argumentsText
  }

  /** The output an item sends tells the pair's result, under the pair's call id. */
  predicate Delivers(item: Item, pair: Exchanged, config: Config) {
    && item.CallOutputItem?
    && item.callId == Some(pair.providerCallId)
    && ResultTold(item.output, pair.result, config)
  }

  predicate Matched(calls: seq<Item>, outputs: seq<Item>, pairs: seq<Exchanged>, config: Config) {
    && |calls| == |outputs| == |pairs|
    && forall k | 0 <= k < |pairs| :: Makes(calls[k], pairs[k]) && Delivers(outputs[k], pairs[k], config)
  }

  /** The items make the pairs' calls and deliver their results, in order. */
  predicate Settles(items: seq<Item>, pairs: seq<Exchanged>, config: Config) {
    Matched(CallsIn(items), OutputsIn(items), pairs, config)
  }

  lemma {:induction false} MatchedConcat(
    a: seq<Item>, b: seq<Item>, p: seq<Exchanged>, c: seq<Item>, d: seq<Item>, q: seq<Exchanged>, config: Config)
    requires Matched(a, b, p, config) && Matched(c, d, q, config)
    ensures Matched(a + c, b + d, p + q, config)
  {
    forall k | 0 <= k < |p + q|
      ensures Makes((a + c)[k], (p + q)[k]) && Delivers((b + d)[k], (p + q)[k], config)
    {
      if k >= |p| {
        var i := k - |p|;
        assert (a + c)[k] == c[i] && (b + d)[k] == d[i] && (p + q)[k] == q[i];
      }
    }
  }

  lemma {:induction false} SettlesConcat(
    a: seq<Item>, p: seq<Exchanged>, b: seq<Item>, q: seq<Exchanged>, config: Config)
    requires Settles(a, p, config) && Settles(b, q, config)
    ensures Settles(a + b, p + q, config)
  {
    CallsInConcat(a, b);
    OutputsInConcat(a, b);
    MatchedConcat(CallsIn(a), OutputsIn(a), p, CallsIn(b), OutputsIn(b), q, config);
  }

  predicate MakesCalls(items: seq<Item>, calls: seq<LocalCall>) {
    && OutputsIn(items) == []
    && |CallsIn(items)| == |calls|
    && forall k | 0 <= k < |calls| ::
         && CallsIn(items)[k].CallItem?
         && CallsIn(items)[k].callId == Some(calls[k].providerCallId)
         && CallsIn(items)[k].name == calls[k].name
         && CallsIn(items)[k].arguments == calls[k].argumentsText
  }

  lemma {:induction false} ContentMakesCalls(content: seq<OutputPart>, own: bool, config: Config)
    requires LowerContent(content, own, config).Ok?
    ensures MakesCalls(LowerContent(content, own, config).value, LocalCalls(content))
  {
    if content != [] {
      var item := LowerPart(content[0], own, config).value;
      var rest := LowerContent(content[1..], own, config).value;
      ContentMakesCalls(content[1..], own, config);
      assert ([item] + rest)[1..] == rest;
    }
  }

  lemma {:induction false} OnlyOutputs(items: seq<Item>)
    requires forall i | 0 <= i < |items| :: items[i].CallOutputItem?
    ensures CallsIn(items) == [] && OutputsIn(items) == items
  {
    if items != [] {
      OnlyOutputs(items[1..]);
    }
  }

  lemma {:induction false} GroupLowers(results: seq<ToolResult>, callIds: seq<string>, config: Config)
    requires LowerGroup(results, callIds, config).Ok?
    ensures var items := LowerGroup(results, callIds, config).value;
            && |items| == |results|
            && forall k | 0 <= k < |results| :: LowerResult(results[k], callIds, config) == Ok(items[k])
  {
    if results != [] {
      GroupLowers(results[1..], callIds, config);
      assert results == [results[0]] + results[1..];
    }
  }

  /** A complete group lowers to one output per call, under that call's id. */
  lemma GroupDelivers(caller: Message, group: Message, turn: ModelOrigin, config: Config)
    requires caller.Assistant? && Answers(group, Opens(caller))
    requires LowerMessage(group, turn, config, CallIds(caller.content)).Ok?
    ensures var calls := LocalCalls(caller.content);
            var answers := LowerMessage(group, turn, config, CallIds(caller.content)).value;
            && |answers| == |calls|
            && forall k | 0 <= k < |calls| ::
                 && answers[k].CallOutputItem?
                 && answers[k].callId == Some(calls[k].providerCallId)
                 && ResultTold(answers[k].output, group.results[k], config)
  {
    GroupLowers(group.results, CallIds(caller.content), config);
    forall k | 0 <= k < |group.results|
      ensures ResultTold(OutputOf(group.results[k], config).value, group.results[k], config)
    {
      assert LowerResult(group.results[k], CallIds(caller.content), config).Ok?;
      OutputTellsResult(group.results[k], config);
    }
  }

  /** A calling assistant and its group lower to calls and their answers. */
  lemma {:induction false} GroupExchanges(
    caller: Message, group: Message, turn: ModelOrigin, config: Config, callIds: seq<string>)
    requires Calling(caller) && Answers(group, Opens(caller))
    requires LowerMessage(caller, turn, config, callIds).Ok?
    requires LowerMessage(group, turn, config, IdsAfter(caller, callIds)).Ok?
    ensures var items := LowerMessage(caller, turn, config, callIds).value
                         + LowerMessage(group, turn, config, IdsAfter(caller, callIds)).value;
            Settles(items, Pairs(LocalCalls(caller.content), group.results), config)
  {
    var made := LowerMessage(caller, turn, config, callIds).value;
    var answers := LowerMessage(group, turn, config, IdsAfter(caller, callIds)).value;
    ContentMakesCalls(caller.content, SameModelOrigin(caller.origin, turn), config);
    GroupDelivers(caller, group, turn, config);
    OnlyOutputs(answers);
    CallsInConcat(made, answers);
    OutputsInConcat(made, answers);
    PairsAt(LocalCalls(caller.content), group.results);
    assert CallsIn(made + answers) == CallsIn(made);
    assert OutputsIn(made + answers) == answers;
  }

  lemma {:induction false} PairsAt(calls: seq<LocalCall>, results: seq<ToolResult>)
    requires |calls| == |results|
    ensures |Pairs(calls, results)| == |calls|
    ensures forall k | 0 <= k < |calls| ::
              Pairs(calls, results)[k] ==
              Exchanged(calls[k].providerCallId, calls[k].name, calls[k].argumentsText, results[k])
  {
    if calls != [] {
      PairsAt(calls[1..], results[1..]);
    }
  }

  lemma {:induction false} AcceptedExchanges(
    messages: seq<Message>, turn: ModelOrigin, config: Config, callIds: seq<string>)
    requires Accepts(messages, 0) && LowerAll(messages, turn, config, callIds).Ok?
    ensures Settles(LowerAll(messages, turn, config, callIds).value, Exchanges(messages), config)
    decreases |messages|
  {
    if messages == [] {
    } else {
      var first := LowerMessage(messages[0], turn, config, callIds).value;
      var ids := IdsAfter(messages[0], callIds);
      if Calling(messages[0]) {
        var rest := messages[1..][1..];
        assert rest == messages[2..];
        GroupExchanges(messages[0], messages[1], turn, config, callIds);
        AcceptedExchanges(rest, turn, config, IdsAfter(messages[1], ids));
        ExchangeFirst(messages);
        var second := LowerMessage(messages[1], turn, config, ids).value;
        var others := LowerAll(rest, turn, config, IdsAfter(messages[1], ids)).value;
        SettlesConcat(first + second, Pairs(LocalCalls(messages[0].content), messages[1].results),
                      others, Exchanges(rest), config);
        ConcatAssociative(first, second, others);
      } else {
        AcceptedExchanges(messages[1..], turn, config, ids);
        ExchangesSkip(messages);
        if messages[0].Assistant? {
          ContentMakesCalls(messages[0].content, SameModelOrigin(messages[0].origin, turn), config);
        }
        SettlesConcat(first, [], LowerAll(messages[1..], turn, config, ids).value, Exchanges(messages[1..]), config);
        assert [] + Exchanges(messages[1..]) == Exchanges(messages[1..]);
      }
    }
  }

  /** The request built from a sendable history makes the history's calls, in
      order, and answers the k-th of them with its own result under its own id:
      through the replay, the ordinals and the run of ids. */
  lemma RequestAnswersItsCalls(messages: seq<Message>, turn: ModelOrigin, config: Config, items: seq<Item>)
    requires Sendable(messages)
    requires LowerAll(Replayed(messages, turn), turn, config, []) == Ok(items)
    ensures Settles(items, Exchanges(messages), config)
  {
    ReplayKeepsSendable(messages, turn);
    SendableIffAccepted(Replayed(messages, turn));
    AcceptedExchanges(Replayed(messages, turn), turn, config, []);
    ReplayKeepsExchanges(messages, turn);
  }

  // ----- when a request can be built -----

  /** What the codec can carry of a part the turn's model, or none, wrote. */
  predicate Carriable(part: OutputPart, own: bool) {
    match part
    case MessagePart(segments, evidence) =>
      if evidence.Some? then own
      else forall i | 0 <= i < |segments| :: segments[i].TextSegment?
    case ReasoningPart(_, _, evidence) => own && evidence.Some? && evidence.value.ResponsesReasoning?
    case LocalCallPart(_, _, _, evidence) => evidence.None? || own
  }

  /** What the route takes of a user's or a result's parts: any text, images in
      its formats, documents where it takes files, never audio or video. */
  predicate InputCarriable(part: InputPart, config: Config) {
    match part
    case InputText(_) => true
    case InputImage(mimeType, base64, _) => IsTakenImage(mimeType, base64, config)
    case InputMedia(kind, _, _) => kind.Document? && config.supportsDocumentInput
  }

  predicate AllCarriable(parts: seq<InputPart>, config: Config) {
    forall i | 0 <= i < |parts| :: InputCarriable(parts[i], config)
  }

  predicate CarriableMessage(message: Message, turn: ModelOrigin, config: Config) {
    match message
    case User(input) => AllCarriable(input, config)
    case Tool(results) => forall i | 0 <= i < |results| :: AllCarriable(results[i].content, config)
    case System(_) => true
    case Assistant(origin, content) =>
      FromAnotherModel(message, turn) ||
      forall i | 0 <= i < |content| :: Carriable(content[i], SameModelOrigin(origin, turn))
  }

  lemma CarriableConcat(a: seq<InputPart>, b: seq<InputPart>, config: Config)
    ensures AllCarriable(a + b, config) <==> AllCarriable(a, config) && AllCarriable(b, config)
  {
    assert forall i | 0 <= i < |a| :: (a + b)[i] == a[i];
    assert forall i | 0 <= i < |b| :: b[i] == (a + b)[|a| + i];
  }

  lemma {:induction false} InputsLowerIff(parts: seq<InputPart>, config: Config)
    ensures LowerInputs(parts, config).Ok? <==> AllCarriable(parts, config)
  {
    if parts != [] {
      InputsLowerIff(parts[1..], config);
      if parts[0].InputImage? {
        TakesImageIff(parts[0].mimeType, parts[0].base64, config);
      }
      assert LowerInput(parts[0], config).Ok? <==> InputCarriable(parts[0], config);
      assert parts == [parts[0]] + parts[1..];
    }
  }

  lemma {:induction false} OutputLowersIff(result: ToolResult, config: Config)
    ensures OutputOf(result, config).Ok? <==> AllCarriable(result.content, config)
  {
    InputsLowerIff(result.content, config);
    if forall i | 0 <= i < |result.content| :: result.content[i].InputText? {
      assert forall i | 0 <= i < |result.content| :: InputCarriable(result.content[i], config);
    }
  }

  lemma {:induction false} GroupLowersIff(results: seq<ToolResult>, callIds: seq<string>, config: Config)
    ensures LowerGroup(results, callIds, config).Ok? <==>
            forall i | 0 <= i < |results| :: AllCarriable(results[i].content, config)
  {
    if results != [] {
      GroupLowersIff(results[1..], callIds, config);
      OutputLowersIff(results[0], config);
      assert results == [results[0]] + results[1..];
    }
  }

  lemma {:induction false} ContentLowersIff(content: seq<OutputPart>, own: bool, config: Config)
    ensures LowerContent(content, own, config).Ok? <==>
            forall i | 0 <= i < |content| :: Carriable(content[i], own)
  {
    if content != [] {
      ContentLowersIff(content[1..], own, config);
      assert LowerPart(content[0], own, config).Ok? <==> Carriable(content[0], own);
      assert content == [content[0]] + content[1..];
    }
  }

  lemma {:induction false} PlainLowers(content: seq<OutputPart>, config: Config)
    ensures LowerContent(Plain(content), false, config).Ok?
  {
    if content != [] {
      PlainLowers(content[1..], config);
      var plain := PlainPart(content[0]);
      if plain == [] {
        assert Plain(content) == Plain(content[1..]);
      } else {
        assert plain == [plain[0]] && Plain(content)[1..] == Plain(content[1..]);
      }
    }
  }

  lemma SlotLowersIff(message: Message, turn: ModelOrigin, config: Config, callIds: seq<string>)
    requires Slot(message, turn).Some?
    ensures LowerMessage(Slot(message, turn).value, turn, config, callIds).Ok? <==>
            CarriableMessage(message, turn, config)
  {
    SwitchedIffFromAnotherModel(message, turn);
    if message.User? {
      InputsLowerIff(message.input, config);
    } else if message.Tool? {
      GroupLowersIff(message.results, callIds, config);
    } else if message.Assistant? {
      if Switched(message, turn) {
        PlainLowers(message.content, config);
      } else {
        ContentLowersIff(message.content, SameModelOrigin(message.origin, turn), config);
      }
    }
  }

  lemma {:induction false} AttachLowersIff(
    slot: Option<Message>, gap: bool, rest: seq<Message>, turn: ModelOrigin, config: Config, callIds: seq<string>)
    requires slot.Some?
    ensures LowerAll(Attach(slot, gap, rest), turn, config, callIds).Ok? <==>
            && LowerMessage(slot.value, turn, config, callIds).Ok?
            && LowerAll(rest, turn, config, IdsAfter(slot.value, callIds)).Ok?
  {
    var whole := Attach(slot, gap, rest);
    if whole == [slot.value] + rest {
      assert whole[1..] == rest;
    } else {
      var input, more := slot.value.input, rest[0].input;
      assert whole == [User(input + more)] + rest[1..] && whole[1..] == rest[1..];
      InputsLowerIff(input + more, config);
      InputsLowerIff(input, config);
      InputsLowerIff(more, config);
      CarriableConcat(input, more, config);
    }
  }

  /** A request can be built exactly when the route takes every part of every
      user and tool message, and each assistant that is not switched has what
      the codec carries. */
  lemma {:induction false} LowersIff(messages: seq<Message>, turn: ModelOrigin, config: Config, callIds: seq<string>)
    ensures LowerAll(Replayed(messages, turn), turn, config, callIds).Ok? <==>
            forall i | 0 <= i < |messages| :: CarriableMessage(messages[i], turn, config)
    decreases |messages|
  {
    if messages != [] {
      ReplayedFirst(messages, turn);
      var slot := Slot(messages[0], turn);
      if slot.None? {
        LowersIff(messages[1..], turn, config, callIds);
      } else {
        SlotLowersIff(messages[0], turn, config, callIds);
        LowersIff(messages[1..], turn, config, IdsAfter(slot.value, callIds));
        AttachLowersIff(slot, |messages| > 1 && Slot(messages[1], turn).None?,
                        Replayed(messages[1..], turn), turn, config, callIds);
      }
      assert messages == [messages[0]] + messages[1..];
    }
  }

  /** Why a part of a user's or a result's cannot be sent. */
  predicate InputRefused(part: InputPart, config: Config, error: LowerError) {
    match error
    case UnsupportedImage => part.InputImage? && !IsTakenImage(part.mimeType, part.base64, config)
    case DocumentRefused => part.InputMedia? && part.kind.Document? && !config.supportsDocumentInput
    case AudioOrVideo => part.InputMedia? && !part.kind.Document?
    case _ => false
  }

  /** Why an assistant's part cannot be. */
  predicate PartRefused(part: OutputPart, own: bool, error: LowerError) {
    match error
    case ForeignEvidence =>
      !own &&
      (match part
       case MessagePart(_, evidence) => evidence.Some?
       case ReasoningPart(_, _, evidence) => evidence.Some?
       case LocalCallPart(_, _, _, evidence) => evidence.Some?)
    case RefusalWithoutEvidence =>
      && part.MessagePart? && part.messageEvidence.None?
      && exists segment | segment in part.segments :: segment.RefusalSegment?
    case ReasoningWithoutEvidence =>
      && part.ReasoningPart?
      && (part.reasoningEvidence.None? || (own && !part.reasoningEvidence.value.ResponsesReasoning?))
    case _ => false
  }

  /** The first part that cannot be sent is refused for `error`. */
  predicate InputsRefused(parts: seq<InputPart>, config: Config, error: LowerError) {
    exists i | 0 <= i < |parts| :: AllCarriable(parts[..i], config) && InputRefused(parts[i], config, error)
  }

  predicate MessageRefused(message: Message, turn: ModelOrigin, config: Config, error: LowerError) {
    match message
    case User(input) => InputsRefused(input, config, error)
    case System(_) => false
    case Tool(results) =>
      exists k | 0 <= k < |results| ::
        && (forall j | 0 <= j < k :: AllCarriable(results[j].content, config))
        && InputsRefused(results[k].content, config, error)
    case Assistant(origin, content) =>
      exists k | 0 <= k < |content| ::
        && (forall j | 0 <= j < k :: Carriable(content[j], origin == Some(turn)))
        && PartRefused(content[k], origin == Some(turn), error)
  }

  lemma {:induction false} InputsRefusedFirst(parts: seq<InputPart>, config: Config)
    requires LowerInputs(parts, config).Err?
    ensures InputsRefused(parts, config, LowerInputs(parts, config).error)
  {
    var error := LowerInputs(parts, config).error;
    InputsLowerIff(parts[..1], config);
    if LowerInput(parts[0], config).Err? {
      if parts[0].InputImage? {
        TakesImageIff(parts[0].mimeType, parts[0].base64, config);
      }
      assert AllCarriable(parts[..0], config) && InputRefused(parts[0], config, error);
    } else {
      InputsRefusedFirst(parts[1..], config);
      var i :| 0 <= i < |parts| - 1
            && AllCarriable(parts[1..][..i], config)
            && InputRefused(parts[1..][i], config, error);
      CarriableConcat(parts[..1], parts[1..][..i], config);
      assert parts[..i + 1] == parts[..1] + parts[1..][..i];
    }
  }

  lemma {:induction false} GroupRefusedFirst(
    results: seq<ToolResult>, turn: ModelOrigin, callIds: seq<string>, config: Config)
    requires LowerGroup(results, callIds, config).Err?
    ensures MessageRefused(Tool(results), turn, config, LowerGroup(results, callIds, config).error)
  {
    var error := LowerGroup(results, callIds, config).error;
    OutputLowersIff(results[0], config);
    if OutputOf(results[0], config).Err? {
      InputsRefusedFirst(results[0].content, config);
    } else {
      GroupRefusedFirst(results[1..], turn, callIds, config);
      var k :| 0 <= k < |results| - 1
            && (forall j | 0 <= j < k :: AllCarriable(results[1..][j].content, config))
            && InputsRefused(results[1..][k].content, config, error);
      assert forall j | 1 <= j < k + 1 :: results[j] == results[1..][j - 1];
      assert InputsRefused(results[k + 1].content, config, error);
    }
  }

  lemma PartRefusedFor(part: OutputPart, own: bool, config: Config)
    requires LowerPart(part, own, config).Err?
    ensures PartRefused(part, own, LowerPart(part, own, config).error)
  {
  }

  lemma {:induction false} ContentRefusedFirst(
    origin: Option<ModelOrigin>, content: seq<OutputPart>, turn: ModelOrigin, config: Config)
    requires LowerContent(content, origin == Some(turn), config).Err?
    ensures MessageRefused(
              Assistant(origin, content), turn, config, LowerContent(content, origin == Some(turn), config).error)
  {
    var own := origin == Some(turn);
    var error := LowerContent(content, own, config).error;
    if LowerPart(content[0], own, config).Err? {
      PartRefusedFor(content[0], own, config);
      assert PartRefused(content[0], own, error);
    } else {
      assert Carriable(content[0], own);
      ContentRefusedFirst(origin, content[1..], turn, config);
      var k :| 0 <= k < |content| - 1
            && (forall j | 0 <= j < k :: Carriable(content[1..][j], own))
            && PartRefused(content[1..][k], own, error);
      assert forall j | 1 <= j < k + 1 :: content[j] == content[1..][j - 1];
      assert PartRefused(content[k + 1], own, error);
    }
  }

  /** A history that does not lower is refused for the first part, of the first
      message, that cannot be sent, and for that part's own reason. */
  lemma {:induction false} FirstRefusalWins(
    messages: seq<Message>, turn: ModelOrigin, config: Config, callIds: seq<string>)
    requires LowerAll(messages, turn, config, callIds).Err?
    ensures exists i ::
              && 0 <= i < |messages|
              && LowerAll(messages[..i], turn, config, callIds).Ok?
              && MessageRefused(messages[i], turn, config, LowerAll(messages, turn, config, callIds).error)
    decreases |messages|
  {
    var error, first := LowerAll(messages, turn, config, callIds).error, messages[0];
    if LowerMessage(first, turn, config, callIds).Err? {
      match first {
        case User(input) => InputsRefusedFirst(input, config);
        case Tool(results) => GroupRefusedFirst(results, turn, callIds, config);
        case Assistant(origin, content) => ContentRefusedFirst(origin, content, turn, config);
      }
      assert messages[..0] == [] && MessageRefused(messages[0], turn, config, error);
    } else {
      var ids := IdsAfter(first, callIds);
      FirstRefusalWins(messages[1..], turn, config, ids);
      var i :| 0 <= i < |messages| - 1
            && LowerAll(messages[1..][..i], turn, config, ids).Ok?
            && MessageRefused(messages[1..][i], turn, config, error);
      assert messages[..i + 1][1..] == messages[1..][..i];
      assert messages[1..][i] == messages[i + 1];
    }
  }

  /** The second route takes whatever input the first takes. */
  predicate TakesAtLeast(second: Config, first: Config) {
    && (first.supportsDocumentInput ==> second.supportsDocumentInput)
    && second.gifFrames == first.gifFrames
  }

  /** When a request can be built for one model, a switch to another of the same
      protocol is blocked by nothing but what the other model itself wrote
      before: what was the first model's, no model's or a third's passes. */
  lemma {:induction false} SwitchLowersIff(
    messages: seq<Message>, first: ModelOrigin, second: ModelOrigin, config: Config, other: Config)
    requires first.protocol == second.protocol && TakesAtLeast(other, config)
    requires LowerAll(Replayed(messages, first), first, config, []).Ok?
    ensures LowerAll(Replayed(messages, second), second, other, []).Ok? <==>
            forall i | 0 <= i < |messages| && messages[i].Assistant? && messages[i].origin == Some(second) ::
              CarriableMessage(messages[i], second, other)
  {
    LowersIff(messages, first, config, []);
    LowersIff(messages, second, other, []);
    forall i | 0 <= i < |messages| && !(messages[i].Assistant? && messages[i].origin == Some(second))
      ensures CarriableMessage(messages[i], second, other)
    {
      assert CarriableMessage(messages[i], first, config);
    }
  }

  /** A turn whose reasoning came without evidence blocks the model that wrote
      it, and only that one: a switch back to it fails where staying would not. */
  lemma {:induction false} SwitchBackMayBlock(
    author: ModelOrigin, other: ModelOrigin, config: Config, input: seq<InputPart>)
    requires author.protocol == other.protocol && author != other && AllCarriable(input, config)
    ensures var messages :=
              [User(input), Assistant(Some(author), [ReasoningPart(["thought"], None, None)]), User(input)];
            && Sendable(messages)
            && LowerAll(Replayed(messages, other), other, config, []).Ok?
            && LowerAll(Replayed(messages, author), author, config, []).Err?
  {
    var messages := [User(input), Assistant(Some(author), [ReasoningPart(["thought"], None, None)]), User(input)];
    SendableIffNoIssueAt(messages);
    LowersIff(messages, other, config, []);
    LowersIff(messages, author, config, []);
    assert !Carriable(messages[1].content[0], true);
    assert !CarriableMessage(messages[1], author, config);
  }

  // ----- what the turn's own model gets back -----

  /** The part an item with provider evidence was lowered from. */
  function RaisedPart(item: Item): Option<OutputPart> {
    match item
    case MessageItem(id, status, phase, segments) =>
      Some(MessagePart(segments, Some(ResponsesMessage(id, status, phase))))
    case ReasoningItem(id, summary, thinking, status, encrypted) =>
      Some(ReasoningPart(summary, thinking, Some(ResponsesReasoning(id, encrypted, status))))
    case CallItem(Some(callId), name, _, arguments, itemId, completed) =>
      Some(LocalCallPart(callId, name, arguments, Some(ResponsesFunctionCall(itemId, completed))))
    case _ => None
  }

  /** The model's own evidenced content is lowered part by part without loss:
      each item gives its part back, segments, refusals and opaque bytes too. */
  lemma {:induction false} OwnContentRoundTrips(content: seq<OutputPart>, config: Config)
    requires LowerContent(content, true, config).Ok?
    requires forall i | 0 <= i < |content| :: EvidenceKindOf(content[i]).Some?
    ensures var items := LowerContent(content, true, config).value;
            && |items| == |content|
            && forall i | 0 <= i < |content| :: RaisedPart(items[i]) == Some(content[i])
  {
    if content != [] {
      OwnContentRoundTrips(content[1..], config);
      assert RaisedPart(LowerPart(content[0], true, config).value) == Some(content[0]);
      assert content == [content[0]] + content[1..];
    }
  }

  /** The text between the marks of a system update, if it has them. */
  function UnwrappedUpdate(text: string): Option<string> {
    var n, opening, closing := |text|, |"<system-update>\n"|, |"\n</system-update>"|;
    if n >= opening + closing && text == SystemUpdateText(text[opening..n - closing])
    then Some(text[opening..n - closing]) else None
  }

  /** The system text an item tells of. */
  function RaisedSystem(item: Item): Option<string> {
    match item
    case DeveloperItem(text) => Some(text)
    case UserTextItem(text) => UnwrappedUpdate(text)
    case _ => None
  }

  /** A system text lowers to one item that gives it back; it outranks the user
      only on OpenAI's own endpoint. */
  lemma {:induction false} SystemRoundTrips(text: string, turn: ModelOrigin, config: Config, callIds: seq<string>)
    ensures var lowered := LowerMessage(System(text), turn, config, callIds);
            && lowered.Ok? && |lowered.value| == 1
            && RaisedSystem(lowered.value[0]) == Some(text)
            && (lowered.value[0].DeveloperItem? <==> config.openaiEndpoint)
  {
    var wrapped, opening, closing := SystemUpdateText(text), "<system-update>\n", "\n</system-update>";
    assert wrapped == opening + text + closing;
    assert wrapped[|opening|..|wrapped| - |closing|] == text;
  }

  // ----- what a route gets of a user's parts -----

  /** Base64 as the schema checks it has no semicolon. */
  predicate Encoded(part: InputPart) {
    part.InputText? || ';' !in part.base64
  }

  /** The last semicolon's place; the length when there is none. */
  function LastSemicolon(text: string): nat {
    if text == [] || text[|text| - 1] == ';' then if text == [] then 0 else |text| - 1
    else LastSemicolon(text[..|text| - 1])
  }

  lemma {:induction false} LastSemicolonAt(before: string, after: string)
    requires ';' !in after
    ensures LastSemicolon(before + ";" + after) == |before|
    decreases |after|
  {
    var text := before + ";" + after;
    if after == [] {
      assert text == before + ";";
    } else {
      var shorter := after[..|after| - 1];
      LastSemicolonAt(before, shorter);
      assert text[..|text| - 1] == before + ";" + shorter;
      assert text[|text| - 1] == after[|after| - 1];
    }
  }

  /** The type and the bytes of a data URL. */
  function ReadDataUrl(url: string): Option<(string, string)> {
    var k := LastSemicolon(url);
    if 5 <= k && k + 8 <= |url| then Some((url[5..k], url[k + 8..])) else None
  }

  lemma DataUrlReadsBack(mimeType: string, base64: string)
    requires ';' !in base64
    ensures ReadDataUrl(DataUrl(mimeType, base64)) == Some((mimeType, base64))
  {
    var url, before, after := DataUrl(mimeType, base64), "data:" + mimeType, "base64," + base64;
    assert url == before + ";" + after;
    LastSemicolonAt(before, after);
    assert url[5..|before|] == mimeType && url[|before| + 8..] == base64;
  }

  function DetailRead(detail: SentDetail): Option<Detail> {
    match detail
    case Auto => None
    case Low => Some(LowDetail)
    case High => Some(HighDetail)
  }

  /** The part a piece of content tells of; a file id tells of none. */
  function RaisedInput(content: InputContent): Option<InputPart> {
    match content
    case TextContent(text) => Some(InputText(text))
    case ImageContent(detail, url) =>
      var read := ReadDataUrl(url);
      if read.Some? then Some(InputImage(read.value.0, read.value.1, DetailRead(detail))) else None
    case FileIdContent(_) => None
    case FileDataContent(_, data) =>
      var read := ReadDataUrl(data);
      if read.Some? then Some(InputMedia(Document, read.value.0, read.value.1)) else None
  }

  /** What reaches the provider as it was said: text, an image whose type is in
      lower case and whose detail has a name there, a document sent as bytes. */
  predicate SentAsSaid(part: InputPart, config: Config) {
    match part
    case InputText(_) => true
    case InputImage(mimeType, _, detail) =>
      LowerCase(mimeType) == mimeType && detail != Some(MediumDetail) && detail != Some(UltraHighDetail)
    case InputMedia(_, _, base64) => base64 !in config.fileIds
  }

  lemma DetailReadsBackIff(detail: Option<Detail>)
    ensures DetailRead(DetailSent(detail)) == detail <==>
            detail != Some(MediumDetail) && detail != Some(UltraHighDetail)
  {
    match detail
    case None =>
    case Some(LowDetail) =>
    case Some(MediumDetail) =>
    case Some(HighDetail) =>
    case Some(UltraHighDetail) =>
  }

  lemma ImageReads(mimeType: string, base64: string, detail: SentDetail)
    requires ';' !in base64
    ensures RaisedInput(ImageContent(detail, DataUrl(mimeType, base64))) ==
            Some(InputImage(mimeType, base64, DetailRead(detail)))
  {
    DataUrlReadsBack(mimeType, base64);
  }

  lemma DocumentReads(filename: string, mimeType: string, base64: string)
    requires ';' !in base64
    ensures RaisedInput(FileDataContent(filename, DataUrl(mimeType, base64))) ==
            Some(InputMedia(Document, mimeType, base64))
  {
    DataUrlReadsBack(mimeType, base64);
  }

  /** One part the route takes is given back exactly when it is sent as said. */
  lemma {:induction false} PartRoundTripsIff(part: InputPart, config: Config)
    requires Encoded(part) && LowerInput(part, config).Ok?
    ensures RaisedInput(LowerInput(part, config).value) == Some(part) <==> SentAsSaid(part, config)
  {
    match part
    case InputText(_) =>
    case InputImage(mimeType, base64, detail) =>
      ImageReads(LowerCase(mimeType), base64, DetailSent(detail));
      DetailReadsBackIff(detail);
    case InputMedia(_, mimeType, base64) =>
      if base64 !in config.fileIds {
        DocumentReads("document." + AfterSlash(mimeType), mimeType, base64);
      }
  }

  function RaisedInputs(contents: seq<InputContent>): Option<seq<InputPart>> {
    if contents == [] then Some([])
    else
      var first, rest := RaisedInput(contents[0]), RaisedInputs(contents[1..]);
      if first.None? || rest.None? then None else Some([first.value] + rest.value)
  }

  lemma {:induction false} RaisedLength(contents: seq<InputContent>)
    ensures RaisedInputs(contents).Some? ==> |RaisedInputs(contents).value| == |contents|
  {
    if contents != [] {
      RaisedLength(contents[1..]);
    }
  }

  /** A user message the route takes lowers to one item with one content a part,
      in order, and the item gives the message back exactly when every part is
      sent as it was said. */
  lemma {:induction false} UserRoundTripsIff(input: seq<InputPart>, config: Config)
    requires forall i | 0 <= i < |input| :: Encoded(input[i])
    requires AllCarriable(input, config)
    ensures LowerInputs(input, config).Ok? && |LowerInputs(input, config).value| == |input|
    ensures LowerUser(input, config) == Ok([UserItem(LowerInputs(input, config).value)])
    ensures RaisedInputs(LowerInputs(input, config).value) == Some(input) <==>
            forall i | 0 <= i < |input| :: SentAsSaid(input[i], config)
  {
    InputsLowerIff(input, config);
    if input != [] {
      assert InputCarriable(input[0], config) && Encoded(input[0]);
      UserRoundTripsIff(input[1..], config);
      PartRoundTripsIff(input[0], config);
      var contents := LowerInputs(input, config).value;
      assert contents[1..] == LowerInputs(input[1..], config).value;
      assert input == [input[0]] + input[1..];
    }
  }
}
