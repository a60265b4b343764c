/** What a continuation may leave out of a Responses request, and the count that
    stands for what it covers. */
module ResponsesContinuations {
  import opened Wrappers
  import opened Protocols
  import opened Messages
  import opened Replay
  import opened ReplayValidity
  import opened ReplayLaws
  import opened ReplayOrder
  import opened ResponsesLowering
  import opened ResponsesRequests
  import T = TurnResults

  // ----- the rest of a request -----

  lemma {:induction false} LowerConcat(
    a: seq<Message>, b: seq<Message>, turn: ModelOrigin, config: Config, callIds: seq<string>)
    ensures LowerAll(a + b, turn, config, callIds) ==
            Then(LowerAll(a, turn, config, callIds), LowerAll(b, turn, config, IdsLeft(a, callIds)))
    decreases |a|
  {
    if a == [] {
      assert a + b == b;
      ThenNothing(LowerAll(b, turn, config, callIds));
    } else {
      assert (a + b)[1..] == a[1..] + b;
      var ids := IdsAfter(a[0], callIds);
      LowerConcat(a[1..], b, turn, config, ids);
      ThenAssociative(LowerMessage(a[0], turn, config, callIds), LowerAll(a[1..], turn, config, ids),
                      LowerAll(b, turn, config, IdsLeft(a, callIds)));
    }
  }

  lemma {:induction false} IdsLeftByLast(messages: seq<Message>, callIds: seq<string>)
    requires messages != [] && messages[|messages| - 1].Assistant?
    ensures IdsLeft(messages, callIds) == CallIds(messages[|messages| - 1].content)
    decreases |messages|
  {
    if |messages| > 1 {
      IdsLeftByLast(messages[1..], IdsAfter(messages[0], callIds));
    }
  }

  /** Sending the suffix alone, against the ids the raw prefix leaves, sends
      exactly what the whole request has beyond the prefix's own items: the
      prefix being a request's messages and the answer of the turn's own model. */
  lemma ContinuationSendsTheRest(
    sent: seq<Message>, answer: Message, suffix: seq<Message>, turn: ModelOrigin, config: Config)
    requires answer.Assistant? && SameModelOrigin(answer.origin, turn)
    ensures var prefix := sent + [answer];
            LowerAll(Replayed(prefix + suffix, turn), turn, config, []) ==
            Then(LowerAll(Replayed(prefix, turn), turn, config, []),
                 LowerAll(Replayed(suffix, turn), turn, config, IdsLeft(prefix, [])))
  {
    var prefix := sent + [answer];
    ReplayedConcat(prefix, suffix, turn);
    LowerConcat(Replayed(prefix, turn), Replayed(suffix, turn), turn, config, []);
    IdsLeftByLast(prefix, []);
    IdsLeftByLast(Replayed(prefix, turn), []);
  }

  // ----- the count a continuation covers -----

  /** The items one message is counted for without lowering it. */
  function LoweredItemCount(message: Message): nat {
    match message
    case Tool(results) => |results|
    case Assistant(_, content) => |content|
    case _ => 1
  }

  function CoveredItems(messages: seq<Message>): nat {
    if messages == [] then 0 else LoweredItemCount(messages[0]) + CoveredItems(messages[1..])
  }

  lemma {:induction false} ContentCount(content: seq<OutputPart>, own: bool, config: Config)
    requires LowerContent(content, own, config).Ok?
    ensures |LowerContent(content, own, config).value| == |content|
  {
    if content != [] {
      ContentCount(content[1..], own, config);
    }
  }

  lemma {:induction false} LowerCount(messages: seq<Message>, turn: ModelOrigin, config: Config, callIds: seq<string>)
    requires LowerAll(messages, turn, config, callIds).Ok?
    ensures |LowerAll(messages, turn, config, callIds).value| == CoveredItems(messages)
    decreases |messages|
  {
    if messages != [] {
      if messages[0].Assistant? {
        ContentCount(messages[0].content, SameModelOrigin(messages[0].origin, turn), config);
      } else if messages[0].Tool? {
        GroupLowers(messages[0].results, callIds, config);
      }
      LowerCount(messages[1..], turn, config, IdsAfter(messages[0], callIds));
    }
  }

  function ReasoningParts(content: seq<OutputPart>): nat {
    if content == [] then 0 else (if content[0].ReasoningPart? then 1 else 0) + ReasoningParts(content[1..])
  }

  /** The reasoning replay strips: that of the switched assistants. */
  function StrippedParts(messages: seq<Message>, turn: ModelOrigin): nat {
    if messages == [] then 0
    else (if FromAnotherModel(messages[0], turn) then ReasoningParts(messages[0].content) else 0)
         + StrippedParts(messages[1..], turn)
  }

  /** The user messages replay joins to the one kept before them. */
  ghost function JoinedUsers(messages: seq<Message>, turn: ModelOrigin): nat {
    Tally(Slots(messages, turn), |messages|, Joined)
  }

  lemma {:induction false} PlainCount(content: seq<OutputPart>)
    ensures |Plain(content)| == |content| - ReasoningParts(content)
  {
    if content != [] {
      PlainCount(content[1..]);
    }
  }

  lemma {:induction false} CoveredConcat(a: seq<Message>, b: seq<Message>)
    ensures CoveredItems(a + b) == CoveredItems(a) + CoveredItems(b)
  {
    if a == [] {
      assert a + b == b;
    } else {
      CoveredConcat(a[1..], b);
      assert (a + b)[1..] == a[1..] + b;
    }
  }

  lemma {:induction false} StrippedNext(messages: seq<Message>, turn: ModelOrigin, n: nat)
    requires n < |messages|
    ensures StrippedParts(messages[..n + 1], turn) == StrippedParts(messages[..n], turn)
            + if FromAnotherModel(messages[n], turn) then ReasoningParts(messages[n].content) else 0
  {
    if n == 0 {
      assert messages[..1] == [messages[0]];
    } else {
      StrippedNext(messages[1..], turn, n - 1);
      assert messages[..n + 1][1..] == messages[1..][..n];
      assert messages[..n][1..] == messages[1..][..n - 1];
    }
  }

  lemma CoveredOne(message: Message)
    ensures CoveredItems([message]) == LoweredItemCount(message)
  {
  }

  lemma LastUserCounts(out: seq<Message>, input: seq<InputPart>)
    requires out != [] && out[|out| - 1].User?
    ensures CoveredItems(out[|out| - 1 := User(input)]) == CoveredItems(out)
  {
    var head, last := out[..|out| - 1], out[|out| - 1];
    assert out == head + [last];
    assert out[|out| - 1 := User(input)] == head + [User(input)];
    CoveredConcat(head, [last]);
    CoveredConcat(head, [User(input)]);
  }

  /** What replaying one message does to its count. */
  lemma SlotCount(message: Message, turn: ModelOrigin)
    ensures var slot := Slot(message, turn);
            (if slot.None? then 0 else LoweredItemCount(slot.value)) ==
            LoweredItemCount(message) - if FromAnotherModel(message, turn) then ReasoningParts(message.content) else 0
  {
    SwitchedIffFromAnotherModel(message, turn);
    if message.Assistant? {
      PlainCount(message.content);
    }
  }

  lemma CoveredNext(messages: seq<Message>, n: nat)
    requires n < |messages|
    ensures CoveredItems(messages[..n + 1]) == CoveredItems(messages[..n]) + LoweredItemCount(messages[n])
  {
    assert messages[..n + 1] == messages[..n] + [messages[n]];
    CoveredConcat(messages[..n], [messages[n]]);
    CoveredOne(messages[n]);
  }

  lemma SqueezeCount(slots: seq<Option<Message>>, n: nat)
    requires n < |slots|
    ensures CoveredItems(Squeeze(slots[..n + 1])) ==
            CoveredItems(Squeeze(slots[..n]))
            + if FateOf(slots, n).Started? then LoweredItemCount(slots[n].value) else 0
  {
    var out := Squeeze(slots[..n]);
    SqueezeUpTo(slots, n);
    SqueezeStep(slots, n);
    match FateOf(slots, n)
    case Dropped =>
    case Started =>
      CoveredConcat(out, [slots[n].value]);
      CoveredOne(slots[n].value);
    case Joined =>
      LastUserCounts(out, out[|out| - 1].input + slots[n].value.input);
  }

  lemma {:induction false} CountUpTo(messages: seq<Message>, turn: ModelOrigin, n: nat)
    requires n <= |messages|
    ensures var slots := Slots(messages, turn);
            CoveredItems(Squeeze(slots[..n])) ==
            CoveredItems(messages[..n]) - StrippedParts(messages[..n], turn) - Tally(slots, n, Joined)
  {
    if n > 0 {
      CountUpTo(messages, turn, n - 1);
      StrippedNext(messages, turn, n - 1);
      CoveredNext(messages, n - 1);
      SqueezeCount(Slots(messages, turn), n - 1);
      SlotCount(messages[n - 1], turn);
    }
  }

  /** The count taken instead of lowering is over by the reasoning a switch
      strips and the users it joins: it is the number of items exactly when a
      replay strips no reasoning and joins no users. */
  lemma CountIsExactIff(prefix: seq<Message>, turn: ModelOrigin, config: Config, items: seq<Item>)
    requires LowerAll(Replayed(prefix, turn), turn, config, []) == Ok(items)
    ensures |items| == CoveredItems(prefix) - StrippedParts(prefix, turn) - JoinedUsers(prefix, turn)
    ensures |items| == CoveredItems(prefix) <==> StrippedParts(prefix, turn) == 0 && JoinedUsers(prefix, turn) == 0
  {
    LowerCount(Replayed(prefix, turn), turn, config, []);
    CountUpTo(prefix, turn, |prefix|);
    assert prefix[..|prefix|] == prefix;
    assert Slots(prefix, turn)[..|prefix|] == Slots(prefix, turn);
  }

  /** What one model said, with reasoning and the evidence for both parts. */
  function AnEvidencedTurn(origin: ModelOrigin): Message {
    Assistant(Some(origin), [
      ReasoningPart(["thought"], None, Some(ResponsesReasoning("r", None, None))),
      MessagePart([TextSegment("said")], Some(ResponsesMessage("m", Completed, None)))])
  }

  /** After a switch the count does drift: a turn of the earlier model is counted
      for its reasoning, which is not sent. */
  lemma CountDrifts(first: ModelOrigin, second: ModelOrigin, config: Config)
    requires first.protocol == second.protocol == OpenAIResponses && first != second
    ensures var prefix := [User([InputText("ask")]), AnEvidencedTurn(first),
                           User([InputText("ask")]), AnEvidencedTurn(second)];
            var lowered := LowerAll(Replayed(prefix, second), second, config, []);
            lowered.Ok? && |lowered.value| < CoveredItems(prefix)
  {
    var ask := User([InputText("ask")]);
    var prefix := [ask, AnEvidencedTurn(first), ask, AnEvidencedTurn(second)];
    LowersIff(prefix, second, config, []);
    assert forall i | 0 <= i < |prefix| :: CarriableMessage(prefix[i], second, config);
    var lowered := LowerAll(Replayed(prefix, second), second, config, []);
    CountIsExactIff(prefix, second, config, lowered.value);
    assert prefix[1..] == [AnEvidencedTurn(first), ask, AnEvidencedTurn(second)];
    assert ReasoningParts(AnEvidencedTurn(first).content) > 0;
    assert StrippedParts(prefix[1..], second) > 0;
  }

  // ----- minting and honouring a continuation -----

  /** The continuation a stored turn that ended chainable gives its next round.
      A result of another origin is refused. */
  function Minted(
    turn: ModelOrigin, sent: seq<Message>, store: bool, result: T.TurnResult, fingerprint: seq<Message> -> string)
    : (minted: Result<Option<T.Continuation>, LowerError>)
    requires turn.protocol == OpenAIResponses && T.Sound(result)
  {
    if !SameModelOrigin(Some(turn), result.requestedOrigin) then Err(UncoveredPrefix)
    else if !store || (result.finishReason != T.Stop && result.finishReason != T.ToolCalls) then Ok(None)
    else
      var prefix := sent + [T.AssistantMessage(result)];
      Ok(Some(T.ContinuationFields(
        result.requestedOrigin, |prefix|, fingerprint(prefix),
        T.StoredAnchor(result.providerResponseId.value, CoveredItems(prefix)))))
  }

  /** A continuation comes out exactly when the result is the turn's own, the
      route stores and the turn ended in a stop or in tool calls. It names the
      result's own response and covers what was sent and the turn itself. */
  lemma MintedIff(
    turn: ModelOrigin, sent: seq<Message>, store: bool, result: T.TurnResult, fingerprint: seq<Message> -> string)
    requires turn.protocol == OpenAIResponses && T.Sound(result)
    ensures var minted := Minted(turn, sent, store, result, fingerprint);
            var prefix := sent + [Assistant(Some(turn), result.content)];
            && (minted.Err? <==> result.requestedOrigin != turn)
            && (minted.Err? ==> minted.error == UncoveredPrefix)
            && (minted.Ok? && minted.value.Some? <==>
                  && result.requestedOrigin == turn
                  && store
                  && (result.finishReason.Stop? || result.finishReason.ToolCalls?))
            && (minted.Ok? && minted.value.Some? ==>
                  var c := minted.value.value;
                  && c.origin == turn
                  && c.coveredMessages == |sent| + 1
                  && c.prefixFingerprint == fingerprint(prefix)
                  && c.anchor.StoredAnchor?
                  && Some(c.anchor.responseId) == result.providerResponseId
                  && c.anchor.coveredItems == CoveredItems(prefix))
  {
    assert SameModelOrigin(Some(turn), result.requestedOrigin) <==> result.requestedOrigin == turn;
  }

  function Prefix(messages: seq<Message>, n: nat): seq<Message> {
    if n <= |messages| then messages[..n] else messages
  }

  function Suffix(messages: seq<Message>, n: nat): seq<Message> {
    if n <= |messages| then messages[n..] else []
  }

  /** The continuation is the turn's own and covers exactly the history's start. */
  predicate Covers(
    turn: ModelOrigin, messages: seq<Message>, c: T.Continuation, fingerprint: seq<Message> -> string)
  {
    && c.anchor.StoredAnchor?
    && SameModelOrigin(Some(turn), c.origin)
    && c.coveredMessages <= |messages|
    && c.anchor.coveredItems == CoveredItems(Prefix(messages, c.coveredMessages))
    && c.prefixFingerprint == fingerprint(Prefix(messages, c.coveredMessages))
  }

  /** The request's input: the whole history, or behind a continuation that
      covers its start only the rest, against the ids the covered messages leave. */
  method ResponseInput(
    turn: ModelOrigin, messages: seq<Message>, config: Config, continuation: Option<T.Continuation>,
    fingerprint: seq<Message> -> string)
    returns (lowered: Lowered)
    ensures continuation.None? ==> lowered == LowerAll(Replayed(messages, turn), turn, config, [])
    ensures continuation.Some? && !Covers(turn, messages, continuation.value, fingerprint) ==>
              lowered == Err(UncoveredPrefix)
    ensures continuation.Some? && Covers(turn, messages, continuation.value, fingerprint) ==>
              var n := continuation.value.coveredMessages;
              && lowered == LowerAll(Replayed(messages[n..], turn), turn, config, IdsLeft(messages[..n], []))
              && (n > 0 && messages[n - 1].Assistant? && SameModelOrigin(messages[n - 1].origin, turn) ==>
                    LowerAll(Replayed(messages, turn), turn, config, []) ==
                    Then(LowerAll(Replayed(messages[..n], turn), turn, config, []), lowered))
  {
    if continuation.None? {
      lowered := LowerMessages(turn, messages, config, []);
      return;
    }
    var c := continuation.value;
    var prefix := Prefix(messages, c.coveredMessages);
    if || !SameModelOrigin(Some(turn), c.origin)
       || c.coveredMessages > |messages|
       || !c.anchor.StoredAnchor?
       || c.anchor.coveredItems != CoveredItems(prefix)
       || c.prefixFingerprint != fingerprint(prefix)
    {
      return Err(UncoveredPrefix);
    }
    var callIds := ReplayPrefix(prefix);
    lowered := LowerMessages(turn, Suffix(messages, c.coveredMessages), config, callIds);
    SuffixIsTheRest(messages, c.coveredMessages, turn, config);
  }

  /** Replays the covered messages' calls, one by one. */
  method ReplayPrefix(prefix: seq<Message>) returns (callIds: seq<string>)
    ensures callIds == IdsLeft(prefix, [])
  {
    callIds := [];
    for i := 0 to |prefix|
      invariant callIds == IdsLeft(prefix[..i], [])
    {
      IdsLeftNext(prefix, i, []);
      callIds := ReplayCallIds(prefix[i], callIds);
    }
    assert prefix[..|prefix|] == prefix;
  }

  lemma {:induction false} SuffixIsTheRest(messages: seq<Message>, n: nat, turn: ModelOrigin, config: Config)
    requires n <= |messages|
    ensures n > 0 && messages[n - 1].Assistant? && SameModelOrigin(messages[n - 1].origin, turn) ==>
              LowerAll(Replayed(messages, turn), turn, config, []) ==
              Then(LowerAll(Replayed(messages[..n], turn), turn, config, []),
                   LowerAll(Replayed(messages[n..], turn), turn, config, IdsLeft(messages[..n], [])))
  {
    if n > 0 && messages[n - 1].Assistant? && SameModelOrigin(messages[n - 1].origin, turn) {
      assert messages[..n] == messages[..n - 1] + [messages[n - 1]];
      assert messages == messages[..n] + messages[n..];
      ContinuationSendsTheRest(messages[..n - 1], messages[n - 1], messages[n..], turn, config);
    }
  }

  lemma {:induction false} IdsLeftNext(messages: seq<Message>, n: nat, callIds: seq<string>)
    requires n < |messages|
    ensures IdsLeft(messages[..n + 1], callIds) == IdsAfter(messages[n], IdsLeft(messages[..n], callIds))
    decreases n
  {
    if n == 0 {
      assert messages[..1] == [messages[0]];
    } else {
      IdsLeftNext(messages[1..], n - 1, IdsAfter(messages[0], callIds));
      assert messages[..n + 1][1..] == messages[1..][..n];
      assert messages[..n][1..] == messages[1..][..n - 1];
    }
  }

  /** A minted continuation covers every later history of its conversation, and
      what is then sent is exactly what the whole request has beyond the covered
      items: whatever the fingerprint, it asks no more than that equal prefixes
      have equal ones. */
  lemma MintedIsHonoured(
    turn: ModelOrigin, sent: seq<Message>, store: bool, result: T.TurnResult, suffix: seq<Message>,
    fingerprint: seq<Message> -> string, config: Config)
    requires turn.protocol == OpenAIResponses && T.Sound(result)
    requires var minted := Minted(turn, sent, store, result, fingerprint); minted.Ok? && minted.value.Some?
    ensures var c := Minted(turn, sent, store, result, fingerprint).value.value;
            var messages, n := sent + [T.AssistantMessage(result)] + suffix, c.coveredMessages;
            && Covers(turn, messages, c, fingerprint)
            && LowerAll(Replayed(messages, turn), turn, config, []) ==
               Then(LowerAll(Replayed(messages[..n], turn), turn, config, []),
                    LowerAll(Replayed(messages[n..], turn), turn, config, IdsLeft(messages[..n], [])))
  {
    var prefix := sent + [T.AssistantMessage(result)];
    var messages := prefix + suffix;
    assert messages[..|prefix|] == prefix && messages[|prefix|..] == suffix;
    ContinuationSendsTheRest(sent, T.AssistantMessage(result), suffix, turn, config);
  }
}
