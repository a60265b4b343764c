/** A completed provider turn, and the check its parts must pass together. */
module TurnResults {
  import opened Wrappers
  import opened Protocols
  import opened Messages
  import opened AssistantContent

  datatype FinishReason = Stop | LengthLimit | ContentFilter | ToolCalls | Refused

  datatype FinishEvidence =
    | GoogleFinish(status: string, terminalReason: Option<string>)
    | ResponsesFinish(status: string, incompleteReason: Option<string>)

  datatype RefusalEvidence = AnthropicRefusal(category: Option<string>, explanation: Option<string>)

  datatype ProviderUsage =
    | XaiUsage(costInUsdTicks: Option<nat>)
    | AnthropicUsage(
        uncachedInputTokens: Option<nat>,
        cacheCreation5mTokens: Option<nat>,
        cacheCreation1hTokens: Option<nat>)

  datatype Anchor =
    | InteractionAnchor(interactionId: string, coveredSteps: nat)
    | StoredAnchor(responseId: string, coveredItems: nat)

  datatype ContinuationFields = ContinuationFields(
    origin: ModelOrigin, coveredMessages: nat, prefixFingerprint: string, anchor: Anchor)

  const SAMPLE_ORIGIN := ModelOrigin(OpenAIResponses, "", Deployment("", ""), 1)

  /** A continuation's schema fixes its protocol by its anchor. */
  type Continuation = c: ContinuationFields
    | c.origin.protocol == (if c.anchor.InteractionAnchor? then GoogleInteractions else OpenAIResponses)
    witness ContinuationFields(SAMPLE_ORIGIN, 1, "", StoredAnchor("", 0))

  datatype TurnResult = TurnResult(
    providerResponseId: Option<string>,
    requestedOrigin: ModelOrigin,
    content: seq<OutputPart>,
    finishReason: FinishReason,
    finishEvidence: Option<FinishEvidence>,
    refusalEvidence: Option<Option<RefusalEvidence>>,
    providerUsage: Option<ProviderUsage>,
    continuation: Option<Continuation>)

  datatype TurnIssue =
    | InContent(issue: ContentIssue)
    | MisplacedIdentity
    | IncompleteItems
    | ForeignContinuation

  function UsageKind(usage: ProviderUsage): EvidenceKind {
    if usage.XaiUsage? then XaiReceiptKind else AnthropicReceiptKind
  }

  function FinishKind(evidence: FinishEvidence): EvidenceKind {
    if evidence.GoogleFinish? then GoogleFinishKind else ResponsesFinishKind
  }

  predicate IsIncomplete(part: OutputPart) {
    match part
    case MessagePart(_, Some(evidence)) => evidence.status.Incomplete?
    case ReasoningPart(_, _, Some(ResponsesReasoning(_, _, status))) => status == Some(Incomplete)
    case _ => false
  }

  /** The response id, the refusal, the receipt and the finish are where their
      protocol and outcome put them. */
  predicate InPlace(result: TurnResult) {
    var protocol := result.requestedOrigin.protocol;
    && (result.providerResponseId.None? ==> protocol == GoogleInteractions && result.continuation.None?)
    && (result.refusalEvidence.Some? ==> protocol == AnthropicMessages)
    && (result.refusalEvidence.Some? && result.refusalEvidence.value.Some? ==> result.finishReason.Refused?)
    && (result.providerUsage.Some? ==> EvidenceProtocol(UsageKind(result.providerUsage.value)) == protocol)
    && (result.finishEvidence.Some? ==> EvidenceProtocol(FinishKind(result.finishEvidence.value)) == protocol)
  }

  /** Only a turn cut short holds items cut short. */
  predicate CutShortIfIncomplete(result: TurnResult) {
    (exists i | 0 <= i < |result.content| :: IsIncomplete(result.content[i])) ==>
      result.finishReason.LengthLimit? || result.finishReason.ContentFilter?
  }

  predicate ContinuesItself(result: TurnResult) {
    result.continuation.Some? ==> result.continuation.value.origin == result.requestedOrigin
  }

  ghost predicate Sound(result: TurnResult) {
    && Validated(Some(result.requestedOrigin), result.content)
    && InPlace(result)
    && CutShortIfIncomplete(result)
    && ContinuesItself(result)
  }

  /** One issue for each rule broken. */
  ghost function RuleIssues(result: TurnResult): seq<TurnIssue> {
    (if InPlace(result) then [] else [MisplacedIdentity])
    + (if CutShortIfIncomplete(result) then [] else [IncompleteItems])
    + (if ContinuesItself(result) then [] else [ForeignContinuation])
  }

  ghost function TurnIssues(result: TurnResult): seq<TurnIssue> {
    var content := ContentIssues(Some(result.requestedOrigin), result.content);
    seq(|content|, i requires 0 <= i < |content| => InContent(content[i])) + RuleIssues(result)
  }

  /** The check as it runs: content first, then one issue for each rule broken.
      It passes exactly the sound results. */
  method CheckTurnResult(result: TurnResult) returns (issues: seq<TurnIssue>)
    ensures issues == TurnIssues(result)
    ensures issues == [] <==> Sound(result)
  {
    var contentIssues := ValidateAssistantContent(Some(result.requestedOrigin), result.content);
    NoIssuesIffValidated(Some(result.requestedOrigin), result.content);
    issues := seq(|contentIssues|, i requires 0 <= i < |contentIssues| => InContent(contentIssues[i]));
    ghost var before := issues;
    var protocol := result.requestedOrigin.protocol;
    if || (result.providerResponseId.None? && (protocol != GoogleInteractions || result.continuation.Some?))
       || (result.refusalEvidence.Some? && protocol != AnthropicMessages)
       || (result.refusalEvidence.Some? && result.refusalEvidence.value.Some? && result.finishReason != Refused)
       || (result.providerUsage.Some? && protocol != EvidenceProtocol(UsageKind(result.providerUsage.value)))
       || (result.finishEvidence.Some? && protocol != EvidenceProtocol(FinishKind(result.finishEvidence.value)))
    {
      issues := issues + [MisplacedIdentity];
    }
    ghost var misplaced := if InPlace(result) then [] else [MisplacedIdentity];
    ghost var incomplete := if CutShortIfIncomplete(result) then [] else [IncompleteItems];
    ghost var foreign := if ContinuesItself(result) then [] else [ForeignContinuation];
    assert issues == before + misplaced;
    if && result.finishReason != LengthLimit
       && result.finishReason != ContentFilter
       && exists i | 0 <= i < |result.content| :: IsIncomplete(result.content[i])
    {
      issues := issues + [IncompleteItems];
    }
    assert issues == before + misplaced + incomplete;
    if result.continuation.Some?
       && !SameModelOrigin(Some(result.requestedOrigin), result.continuation.value.origin)
    {
      issues := issues + [ForeignContinuation];
    }
    assert issues == before + misplaced + incomplete + foreign;
    assert issues == before + RuleIssues(result);
  }

  /** The evidence the part carries says so of the item it stands for. */
  predicate HasStatus(part: OutputPart, status: EvidenceStatus) {
    || (part.MessagePart? && part.messageEvidence.Some? && part.messageEvidence.value.status == status)
    || (&& part.ReasoningPart?
        && part.reasoningEvidence.Some?
        && part.reasoningEvidence.value.ResponsesReasoning?
        && part.reasoningEvidence.value.status == Some(status))
  }

  /** What each protocol's result must, and may, say of itself. */
  predicate CarriesItsOwn(result: TurnResult) {
    match result.requestedOrigin.protocol
    case AnthropicMessages =>
      && result.providerResponseId.Some?
      && result.finishEvidence.None?
      && (result.providerUsage.None? || result.providerUsage.value.AnthropicUsage?)
      && (result.refusalEvidence.None? || result.refusalEvidence.value.None? || result.finishReason.Refused?)
    case GoogleInteractions =>
      && (result.providerResponseId.Some? || result.continuation.None?)
      && result.refusalEvidence.None?
      && result.providerUsage.None?
      && (result.finishEvidence.None? || result.finishEvidence.value.GoogleFinish?)
    case OpenAIResponses =>
      && result.providerResponseId.Some?
      && result.refusalEvidence.None?
      && (result.providerUsage.None? || result.providerUsage.value.XaiUsage?)
      && (result.finishEvidence.None? || result.finishEvidence.value.ResponsesFinish?)
  }

  lemma InPlaceIff(result: TurnResult)
    ensures InPlace(result) <==> CarriesItsOwn(result)
  {
  }

  lemma CutShortIff(result: TurnResult)
    ensures CutShortIfIncomplete(result) <==>
            || result.finishReason.LengthLimit? || result.finishReason.ContentFilter?
            || forall part | part in result.content :: !HasStatus(part, Incomplete)
  {
    assert forall part :: IsIncomplete(part) <==> HasStatus(part, Incomplete);
  }

  /** Where each rule is broken, on the fields: the identity by what a protocol
      must or may not carry, the items by a message or a reasoning part cut short
      in a turn that was not, the continuation by an origin that is not the
      turn's. The content's own issues come first, and all of them come. */
  lemma {:induction false} TurnIssuesOnFields(result: TurnResult)
    ensures var issues, content := TurnIssues(result), ContentIssues(Some(result.requestedOrigin), result.content);
            && |content| <= |issues| <= |content| + 3
            && (forall i | 0 <= i < |content| :: issues[i] == InContent(content[i]))
            && (forall i | |content| <= i < |issues| :: !issues[i].InContent?)
            && (MisplacedIdentity in issues <==> !CarriesItsOwn(result))
            && (IncompleteItems in issues <==>
                  && !result.finishReason.LengthLimit? && !result.finishReason.ContentFilter?
                  && exists part | part in result.content :: HasStatus(part, Incomplete))
            && (ForeignContinuation in issues <==>
                  result.continuation.Some? && result.continuation.value.origin != result.requestedOrigin)
  {
    InPlaceIff(result);
    CutShortIff(result);
    var content := ContentIssues(Some(result.requestedOrigin), result.content);
    var before := seq(|content|, i requires 0 <= i < |content| => InContent(content[i]));
    var rules := RuleIssues(result);
    assert TurnIssues(result) == before + rules;
    RulesBroken(result);
    assert forall issue | issue in before :: issue.InContent?;
  }

  lemma RulesBroken(result: TurnResult)
    ensures var rules := RuleIssues(result);
            && |rules| <= 3
            && (forall issue | issue in rules :: !issue.InContent?)
            && (MisplacedIdentity in rules <==> !InPlace(result))
            && (IncompleteItems in rules <==> !CutShortIfIncomplete(result))
            && (ForeignContinuation in rules <==> !ContinuesItself(result))
  {
  }

  /** A sound result speaks one protocol: every piece of provider state it
      carries is of its requested origin's, and only Google may leave out the
      response id, then without a continuation. */
  lemma {:induction false} SoundIsSingleProtocol(result: TurnResult)
    requires Sound(result)
    ensures var protocol := result.requestedOrigin.protocol;
            && (forall part | part in result.content && EvidenceKindOf(part).Some? ::
                  EvidenceProtocol(EvidenceKindOf(part).value) == protocol)
            && (result.providerUsage.Some? ==> EvidenceProtocol(UsageKind(result.providerUsage.value)) == protocol)
            && (result.finishEvidence.Some? ==> EvidenceProtocol(FinishKind(result.finishEvidence.value)) == protocol)
            && (result.refusalEvidence.Some? ==> protocol == AnthropicMessages)
            && (result.continuation.Some? ==> result.continuation.value.origin.protocol == protocol)
            && (result.providerResponseId.None? ==> protocol == GoogleInteractions && result.continuation.None?)
  {
    forall part | part in result.content && EvidenceKindOf(part).Some?
      ensures EvidenceProtocol(EvidenceKindOf(part).value) == result.requestedOrigin.protocol
    {
      assert !Foreign(Some(result.requestedOrigin), part);
    }
  }

  /** What that leaves each protocol to carry. */
  lemma {:induction false} SoundByProtocol(result: TurnResult)
    requires Sound(result)
    ensures match result.requestedOrigin.protocol
            case AnthropicMessages =>
              && result.continuation.None? && result.finishEvidence.None? && result.providerResponseId.Some?
              && (result.providerUsage.Some? ==> result.providerUsage.value.AnthropicUsage?)
              && forall part | part in result.content :: ItemIdOf(part).None? && !IsIncomplete(part)
            case GoogleInteractions =>
              && result.refusalEvidence.None? && result.providerUsage.None?
              && (result.finishEvidence.Some? ==> result.finishEvidence.value.GoogleFinish?)
              && (result.continuation.Some? ==> result.continuation.value.anchor.InteractionAnchor?)
              && forall part | part in result.content :: ItemIdOf(part).None? && !IsIncomplete(part)
            case OpenAIResponses =>
              && result.refusalEvidence.None? && result.providerResponseId.Some?
              && (result.providerUsage.Some? ==> result.providerUsage.value.XaiUsage?)
              && (result.finishEvidence.Some? ==> result.finishEvidence.value.ResponsesFinish?)
              && (result.continuation.Some? ==> result.continuation.value.anchor.StoredAnchor?)
              && forall part | part in result.content && part.ReasoningPart? && part.reasoningEvidence.Some? ::
                   part.reasoningEvidence.value.ResponsesReasoning?
  {
    forall part | part in result.content ensures !Foreign(Some(result.requestedOrigin), part) {
    }
  }

  /** The assistant message a completed turn adds to the history. */
  function AssistantMessage(result: TurnResult): Message {
    Assistant(Some(result.requestedOrigin), result.content)
  }
}
