/** The messages of a conversation, and the evidence a provider leaves in them. */
module Messages {
  import opened Wrappers
  import opened Protocols

  datatype Detail = LowDetail | MediumDetail | HighDetail | UltraHighDetail
  datatype MediaKind = Audio | Video | Document

  datatype InputPart =
    | InputText(text: string)
    | InputImage(mimeType: string, base64: string, detail: Option<Detail>)
    | InputMedia(kind: MediaKind, mimeType: string, base64: string)

  /** A piece of a returned message: its text, or a refusal's. */
  datatype Segment = TextSegment(text: string) | RefusalSegment(text: string)

  datatype EvidenceStatus = Completed | Incomplete
  datatype Phase = Commentary | FinalAnswer

  datatype MessageEvidence =
    | ResponsesMessage(itemId: string, status: EvidenceStatus, phase: Option<Option<Phase>>)

  datatype ReasoningEvidence =
    | GoogleThoughtSignature(signature: string)
    | ResponsesReasoning(
        itemId: string,
        encryptedContent: Option<Option<string>>,
        status: Option<EvidenceStatus>)
    | AnthropicThinkingSignature(signature: string)
    | AnthropicRedactedThinking(data: string)

  datatype CallEvidence = ResponsesFunctionCall(itemId: Option<string>, completed: bool)

  datatype OutputPart =
    | MessagePart(segments: seq<Segment>, messageEvidence: Option<MessageEvidence>)
    | ReasoningPart(
        summary: seq<string>,
        thinking: Option<seq<string>>,
        reasoningEvidence: Option<ReasoningEvidence>)
    | LocalCallPart(
        providerCallId: string,
        name: string,
        argumentsText: string,
        callEvidence: Option<CallEvidence>)

  datatype ToolStatus = Success | Error
  datatype ToolResult = ToolResult(callOrdinal: int, status: ToolStatus, content: seq<InputPart>)

  datatype Message =
    | User(input: seq<InputPart>)
    | Assistant(origin: Option<ModelOrigin>, content: seq<OutputPart>)
    | Tool(results: seq<ToolResult>)
    | System(text: string)

  /** Every kind of provider evidence: a part's, a usage receipt's, a finish's. */
  datatype EvidenceKind =
    | GoogleThoughtSignatureKind
    | ResponsesMessageKind
    | ResponsesReasoningKind
    | ResponsesFunctionCallKind
    | AnthropicThinkingSignatureKind
    | AnthropicRedactedThinkingKind
    | AnthropicReceiptKind
    | XaiReceiptKind
    | GoogleFinishKind
    | ResponsesFinishKind

  /** The protocol each kind of evidence belongs to. */
  function EvidenceProtocol(kind: EvidenceKind): Protocol {
    match kind
    case GoogleThoughtSignatureKind | GoogleFinishKind => GoogleInteractions
    case AnthropicThinkingSignatureKind | AnthropicRedactedThinkingKind | AnthropicReceiptKind =>
      AnthropicMessages
    case ResponsesMessageKind | ResponsesReasoningKind | ResponsesFunctionCallKind
       | XaiReceiptKind | ResponsesFinishKind => OpenAIResponses
  }

  function EvidenceKindOf(part: OutputPart): Option<EvidenceKind> {
    match part
    case MessagePart(_, Some(_)) => Some(ResponsesMessageKind)
    case ReasoningPart(_, _, Some(GoogleThoughtSignature(_))) => Some(GoogleThoughtSignatureKind)
    case ReasoningPart(_, _, Some(ResponsesReasoning(_, _, _))) => Some(ResponsesReasoningKind)
    case ReasoningPart(_, _, Some(AnthropicThinkingSignature(_))) => Some(AnthropicThinkingSignatureKind)
    case ReasoningPart(_, _, Some(AnthropicRedactedThinking(_))) => Some(AnthropicRedactedThinkingKind)
    case LocalCallPart(_, _, _, Some(_)) => Some(ResponsesFunctionCallKind)
    case _ => None
  }

  /** The item id a part's evidence names, where that kind has one. */
  function ItemIdOf(part: OutputPart): Option<string> {
    match part
    case MessagePart(_, Some(evidence)) => Some(evidence.itemId)
    case ReasoningPart(_, _, Some(ResponsesReasoning(itemId, _, _))) => Some(itemId)
    case LocalCallPart(_, _, _, Some(evidence)) => evidence.itemId
    case _ => None
  }

  type LocalCall = part: OutputPart | part.LocalCallPart? witness LocalCallPart("", "", "", None)

  /** A turn's local calls, in order. */
  function LocalCalls(content: seq<OutputPart>): seq<LocalCall> {
    if content == [] then []
    else if content[0].LocalCallPart? then [content[0]] + LocalCalls(content[1..])
    else LocalCalls(content[1..])
  }

  lemma {:induction false} LocalCallsIffSome(content: seq<OutputPart>)
    ensures LocalCalls(content) != [] <==> exists part | part in content :: part.LocalCallPart?
  {
    if content != [] {
      LocalCallsIffSome(content[1..]);
    }
  }

  lemma {:induction false} LocalCallsConcat(a: seq<OutputPart>, b: seq<OutputPart>)
    ensures LocalCalls(a + b) == LocalCalls(a) + LocalCalls(b)
  {
    if a == [] {
      assert a + b == b;
    } else {
      assert (a + b)[1..] == a[1..] + b;
      LocalCallsConcat(a[1..], b);
    }
  }
}
