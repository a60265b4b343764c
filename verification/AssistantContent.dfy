/** The one-pass check of an assistant's content against its origin. */
module AssistantContent {
  import opened Wrappers
  import opened Protocols
  import opened Messages

  /** The ids a response must not repeat. */
  datatype Identifier = ItemId | CallId

  datatype Fault = ForeignEvidence | MalformedThinking | Repeated(id: Identifier)
  datatype ContentIssue = ContentIssue(index: nat, fault: Fault)

  function IdOf(part: OutputPart, id: Identifier): Option<string> {
    match id
    case ItemId => ItemIdOf(part)
    case CallId => if part.LocalCallPart? then Some(part.providerCallId) else None
  }

  predicate Foreign(origin: Option<ModelOrigin>, part: OutputPart) {
    var kind := EvidenceKindOf(part);
    kind.Some? && !(origin.Some? && origin.value.protocol == EvidenceProtocol(kind.value))
  }

  /** Signed thinking keeps one exact text and no summary; redacted thinking
      keeps neither. */
  predicate Malformed(part: OutputPart) {
    match part
    case ReasoningPart(summary, thinking, Some(AnthropicThinkingSignature(_))) =>
      summary != [] || thinking.None? || |thinking.value| != 1
    case ReasoningPart(summary, thinking, Some(AnthropicRedactedThinking(_))) =>
      summary != [] || thinking.Some?
    case _ => false
  }

  /** Part `i` carries an id that an earlier part already carries. */
  ghost predicate Repeats(content: seq<OutputPart>, i: nat, id: Identifier)
    requires i < |content|
  {
    IdOf(content[i], id).Some? && exists j | 0 <= j < i :: IdOf(content[j], id) == IdOf(content[i], id)
  }

  ghost predicate Shows(origin: Option<ModelOrigin>, content: seq<OutputPart>, i: nat, fault: Fault)
    requires i < |content|
  {
    match fault
    case ForeignEvidence => Foreign(origin, content[i])
    case MalformedThinking => Malformed(content[i])
    case Repeated(id) => Repeats(content, i, id)
  }

  ghost function IssueIf(
    origin: Option<ModelOrigin>, content: seq<OutputPart>, i: nat, fault: Fault): seq<ContentIssue>
    requires i < |content|
  {
    if Shows(origin, content, i, fault) then [ContentIssue(i, fault)] else []
  }

  /** What the check reports: part by part, each fault the part shows. */
  ghost function IssuesUpTo(origin: Option<ModelOrigin>, content: seq<OutputPart>, n: nat): seq<ContentIssue>
    requires n <= |content|
  {
    if n == 0 then []
    else
      IssuesUpTo(origin, content, n - 1)
      + IssueIf(origin, content, n - 1, ForeignEvidence)
      + IssueIf(origin, content, n - 1, MalformedThinking)
      + IssueIf(origin, content, n - 1, Repeated(ItemId))
      + IssueIf(origin, content, n - 1, Repeated(CallId))
  }

  ghost function ContentIssues(origin: Option<ModelOrigin>, content: seq<OutputPart>): seq<ContentIssue> {
    IssuesUpTo(origin, content, |content|)
  }

  function Known(part: OutputPart, id: Identifier): set<string> {
    match IdOf(part, id)
    case None => {}
    case Some(v) => {v}
  }

  /** The distinct ids among the first `n` parts. */
  function IdsUpTo(content: seq<OutputPart>, n: nat, id: Identifier): set<string>
    requires n <= |content|
  {
    if n == 0 then {} else IdsUpTo(content, n - 1, id) + Known(content[n - 1], id)
  }

  lemma {:induction false} IdsAreCarried(content: seq<OutputPart>, n: nat, id: Identifier, v: string)
    requires n <= |content|
    ensures v in IdsUpTo(content, n, id) <==> exists j | 0 <= j < n :: IdOf(content[j], id) == Some(v)
  {
    if n > 0 {
      IdsAreCarried(content, n - 1, id, v);
    }
  }

  /** Membership in the accumulated set is repetition in the content. */
  lemma IdKnownIffRepeats(content: seq<OutputPart>, n: nat, id: Identifier)
    requires n < |content|
    ensures Repeats(content, n, id) <==>
            IdOf(content[n], id).Some? && IdOf(content[n], id).value in IdsUpTo(content, n, id)
  {
    if IdOf(content[n], id).Some? {
      IdsAreCarried(content, n, id, IdOf(content[n], id).value);
    }
  }

  method ValidateAssistantContent(origin: Option<ModelOrigin>, content: seq<OutputPart>)
    returns (issues: seq<ContentIssue>)
    ensures issues == ContentIssues(origin, content)
  {
    issues := [];
    var ids: set<string> := {};
    var itemIds: set<string> := {};
    for index := 0 to |content|
      invariant issues == IssuesUpTo(origin, content, index)
      invariant itemIds == IdsUpTo(content, index, ItemId)
      invariant ids == IdsUpTo(content, index, CallId)
    {
      var part := content[index];
      ghost var start := issues;
      var foreign := Foreign(origin, part);
      if foreign {
        issues := issues + [ContentIssue(index, ForeignEvidence)];
      }
      assert issues == start + IssueIf(origin, content, index, ForeignEvidence);
      ghost var first := issues;
      var malformed := Malformed(part);
      if malformed {
        issues := issues + [ContentIssue(index, MalformedThinking)];
      }
      assert issues == first + IssueIf(origin, content, index, MalformedThinking);
      ghost var second := issues;
      IdKnownIffRepeats(content, index, ItemId);
      var itemId := ItemIdOf(part);
      if itemId.Some? {
        if itemId.value in itemIds {
          issues := issues + [ContentIssue(index, Repeated(ItemId))];
        }
        itemIds := itemIds + {itemId.value};
      }
      assert issues == second + IssueIf(origin, content, index, Repeated(ItemId));
      IdKnownIffRepeats(content, index, CallId);
      if !part.LocalCallPart? {
        continue;
      }
      if part.providerCallId in ids {
        issues := issues + [ContentIssue(index, Repeated(CallId))];
      }
      ids := ids + {part.providerCallId};
    }
  }

  // ----- what the check counts -----

  function Count(issues: seq<ContentIssue>, fault: Fault): nat {
    if issues == [] then 0
    else Count(issues[..|issues| - 1], fault) + if issues[|issues| - 1].fault == fault then 1 else 0
  }

  lemma {:induction false} CountsMakeTheWhole(issues: seq<ContentIssue>)
    ensures |issues| == Count(issues, ForeignEvidence) + Count(issues, MalformedThinking)
                        + Count(issues, Repeated(ItemId)) + Count(issues, Repeated(CallId))
  {
    if issues != [] {
      CountsMakeTheWhole(issues[..|issues| - 1]);
      match issues[|issues| - 1].fault
      case ForeignEvidence | MalformedThinking =>
      case Repeated(id) =>
        assert id == ItemId || id == CallId;
    }
  }

  lemma CountIf(
    issues: seq<ContentIssue>, origin: Option<ModelOrigin>, content: seq<OutputPart>, i: nat,
    shown: Fault, fault: Fault)
    requires i < |content|
    ensures Count(issues + IssueIf(origin, content, i, shown), fault) ==
            Count(issues, fault) + if shown == fault && Shows(origin, content, i, fault) then 1 else 0
  {
    if Shows(origin, content, i, shown) {
      assert (issues + [ContentIssue(i, shown)])[..|issues|] == issues;
    } else {
      assert issues + [] == issues;
    }
  }

  lemma CountNext(origin: Option<ModelOrigin>, content: seq<OutputPart>, i: nat, fault: Fault)
    requires i < |content|
    ensures Count(IssuesUpTo(origin, content, i + 1), fault) ==
            Count(IssuesUpTo(origin, content, i), fault) + if Shows(origin, content, i, fault) then 1 else 0
  {
    var a := IssuesUpTo(origin, content, i);
    var b := a + IssueIf(origin, content, i, ForeignEvidence);
    var c := b + IssueIf(origin, content, i, MalformedThinking);
    var d := c + IssueIf(origin, content, i, Repeated(ItemId));
    CountIf(a, origin, content, i, ForeignEvidence, fault);
    CountIf(b, origin, content, i, MalformedThinking, fault);
    CountIf(c, origin, content, i, Repeated(ItemId), fault);
    CountIf(d, origin, content, i, Repeated(CallId), fault);
  }

  /** The parts a fault is about: the offending part itself, or for a repeated
      id every part that carries such an id. */
  predicate Concerns(origin: Option<ModelOrigin>, part: OutputPart, fault: Fault) {
    match fault
    case ForeignEvidence => Foreign(origin, part)
    case MalformedThinking => Malformed(part)
    case Repeated(id) => IdOf(part, id).Some?
  }

  function Concerned(origin: Option<ModelOrigin>, content: seq<OutputPart>, fault: Fault): nat {
    if content == [] then 0
    else
      Concerned(origin, content[..|content| - 1], fault)
      + if Concerns(origin, content[|content| - 1], fault) then 1 else 0
  }

  ghost function Ids(content: seq<OutputPart>, id: Identifier): set<string> {
    IdsUpTo(content, |content|, id)
  }

  lemma IdsGrow(content: seq<OutputPart>, n: nat, id: Identifier)
    requires n < |content|
    ensures |IdsUpTo(content, n + 1, id)| == |IdsUpTo(content, n, id)|
            + if IdOf(content[n], id).Some? && !Repeats(content, n, id) then 1 else 0
  {
    IdKnownIffRepeats(content, n, id);
    match IdOf(content[n], id)
    case None =>
    case Some(v) =>
      if Repeats(content, n, id) {
        assert IdsUpTo(content, n, id) + {v} == IdsUpTo(content, n, id);
      }
  }

  lemma ConcernedNext(origin: Option<ModelOrigin>, content: seq<OutputPart>, n: nat, fault: Fault)
    requires n < |content|
    ensures Concerned(origin, content[..n + 1], fault) ==
            Concerned(origin, content[..n], fault) + if Concerns(origin, content[n], fault) then 1 else 0
  {
    assert content[..n + 1][..n] == content[..n];
  }

  ghost function Originals(content: seq<OutputPart>, n: nat, fault: Fault): nat
    requires n <= |content|
  {
    if fault.Repeated? then |IdsUpTo(content, n, fault.id)| else 0
  }

  /** A part a fault concerns either shows it or brings a new id. */
  lemma ConcernedShowsOrOriginal(origin: Option<ModelOrigin>, content: seq<OutputPart>, n: nat, fault: Fault)
    requires n < |content|
    ensures (if Concerns(origin, content[n], fault) then 1 else 0) ==
            (if Shows(origin, content, n, fault) then 1 else 0)
            + Originals(content, n + 1, fault) - Originals(content, n, fault)
  {
    if fault.Repeated? {
      IdsGrow(content, n, fault.id);
    }
  }

  /** The count and its meaning differ by as much after a part as before it. */
  ghost function Excess(origin: Option<ModelOrigin>, content: seq<OutputPart>, n: nat, fault: Fault): int
    requires n <= |content|
  {
    Count(IssuesUpTo(origin, content, n), fault) + Originals(content, n, fault) - Concerned(origin, content[..n], fault)
  }

  lemma ExcessConstant(origin: Option<ModelOrigin>, content: seq<OutputPart>, n: nat, fault: Fault)
    requires n < |content|
    ensures Excess(origin, content, n + 1, fault) == Excess(origin, content, n, fault)
  {
    CountNext(origin, content, n, fault);
    ConcernedNext(origin, content, n, fault);
    ConcernedShowsOrOriginal(origin, content, n, fault);
  }

  lemma {:induction false} NoExcess(origin: Option<ModelOrigin>, content: seq<OutputPart>, n: nat, fault: Fault)
    requires n <= |content|
    ensures Excess(origin, content, n, fault) == 0
  {
    if n > 0 {
      NoExcess(origin, content, n - 1, fault);
      ExcessConstant(origin, content, n - 1, fault);
    }
  }

  /** The single pass means: one issue for each part with foreign evidence, one
      for each malformed thinking part, and as many repeats as there are parts
      with an item id (calls) beyond the distinct item ids (call ids). */
  lemma FaultCounted(origin: Option<ModelOrigin>, content: seq<OutputPart>, fault: Fault)
    ensures Count(ContentIssues(origin, content), fault) ==
            Concerned(origin, content, fault) - if fault.Repeated? then |Ids(content, fault.id)| else 0
  {
    NoExcess(origin, content, |content|, fault);
    assert content[..|content|] == content;
  }

  // ----- order does not matter -----

  lemma {:induction false} ConcernedConcat(
    origin: Option<ModelOrigin>, a: seq<OutputPart>, b: seq<OutputPart>, fault: Fault)
    ensures Concerned(origin, a + b, fault) == Concerned(origin, a, fault) + Concerned(origin, b, fault)
    decreases |b|
  {
    if b == [] {
      assert a + b == a;
    } else {
      ConcernedConcat(origin, a, b[..|b| - 1], fault);
      assert (a + b)[..|a + b| - 1] == a + b[..|b| - 1];
    }
  }

  lemma {:induction false} ConcernedPermuted(
    origin: Option<ModelOrigin>, a: seq<OutputPart>, b: seq<OutputPart>, fault: Fault)
    requires multiset(a) == multiset(b)
    ensures Concerned(origin, a, fault) == Concerned(origin, b, fault)
    decreases |a|
  {
    if a == [] {
      assert |multiset(b)| == 0;
    } else {
      var head, last := a[..|a| - 1], a[|a| - 1];
      assert a == head + [last];
      assert last in multiset(b);
      var j :| 0 <= j < |b| && b[j] == last;
      assert b == b[..j] + [last] + b[j + 1..];
      calc {
        multiset(head);
        multiset(a) - multiset{last};
        multiset(b[..j] + [last] + b[j + 1..]) - multiset{last};
        multiset(b[..j] + b[j + 1..]);
      }
      ConcernedPermuted(origin, head, b[..j] + b[j + 1..], fault);
      ConcernedConcat(origin, b[..j], b[j + 1..], fault);
      ConcernedConcat(origin, b[..j] + [last], b[j + 1..], fault);
      ConcernedConcat(origin, b[..j], [last], fault);
      ConcernedConcat(origin, head, [last], fault);
    }
  }

  lemma IdsPermuted(a: seq<OutputPart>, b: seq<OutputPart>, id: Identifier)
    requires multiset(a) == multiset(b)
    ensures Ids(a, id) <= Ids(b, id)
  {
    forall v | v in Ids(a, id) ensures v in Ids(b, id) {
      IdsAreCarried(a, |a|, id, v);
      IdsAreCarried(b, |b|, id, v);
      var i :| 0 <= i < |a| && IdOf(a[i], id) == Some(v);
      assert a[i] in multiset(b);
    }
  }

  lemma FaultPermuted(origin: Option<ModelOrigin>, a: seq<OutputPart>, b: seq<OutputPart>, fault: Fault)
    requires multiset(a) == multiset(b)
    ensures Count(ContentIssues(origin, a), fault) == Count(ContentIssues(origin, b), fault)
  {
    FaultCounted(origin, a, fault);
    FaultCounted(origin, b, fault);
    ConcernedPermuted(origin, a, b, fault);
    if fault.Repeated? {
      IdsPermuted(a, b, fault.id);
      IdsPermuted(b, a, fault.id);
      assert Ids(a, fault.id) == Ids(b, fault.id);
    }
  }

  /** Permuting the content moves issues, but changes the number of none. */
  lemma IssuesPermuted(origin: Option<ModelOrigin>, a: seq<OutputPart>, b: seq<OutputPart>)
    requires multiset(a) == multiset(b)
    ensures forall fault :: Count(ContentIssues(origin, a), fault) == Count(ContentIssues(origin, b), fault)
    ensures |ContentIssues(origin, a)| == |ContentIssues(origin, b)|
  {
    forall fault ensures Count(ContentIssues(origin, a), fault) == Count(ContentIssues(origin, b), fault) {
      FaultPermuted(origin, a, b, fault);
    }
    CountsMakeTheWhole(ContentIssues(origin, a));
    CountsMakeTheWhole(ContentIssues(origin, b));
  }

  // ----- the verdict -----

  ghost predicate Distinct(content: seq<OutputPart>, id: Identifier) {
    forall i, j | 0 <= i < j < |content| && IdOf(content[j], id).Some? :: IdOf(content[i], id) != IdOf(content[j], id)
  }

  ghost predicate Validated(origin: Option<ModelOrigin>, content: seq<OutputPart>) {
    && (forall part | part in content :: !Foreign(origin, part) && !Malformed(part))
    && Distinct(content, ItemId)
    && Distinct(content, CallId)
  }

  ghost predicate Clean(origin: Option<ModelOrigin>, content: seq<OutputPart>, i: nat)
    requires i < |content|
  {
    && !Foreign(origin, content[i])
    && !Malformed(content[i])
    && !Repeats(content, i, ItemId)
    && !Repeats(content, i, CallId)
  }

  lemma {:induction false} NoIssuesUpTo(origin: Option<ModelOrigin>, content: seq<OutputPart>, n: nat)
    requires n <= |content|
    ensures IssuesUpTo(origin, content, n) == [] <==> forall i: nat | i < n :: Clean(origin, content, i)
  {
    if n > 0 {
      NoIssuesUpTo(origin, content, n - 1);
      assert Clean(origin, content, n - 1) <==>
             && IssueIf(origin, content, n - 1, ForeignEvidence) == []
             && IssueIf(origin, content, n - 1, MalformedThinking) == []
             && IssueIf(origin, content, n - 1, Repeated(ItemId)) == []
             && IssueIf(origin, content, n - 1, Repeated(CallId)) == [];
    }
  }

  /** No issue means: evidence all of the origin's protocol, thinking well
      shaped, item ids distinct and call ids distinct. */
  lemma NoIssuesIffValidated(origin: Option<ModelOrigin>, content: seq<OutputPart>)
    ensures ContentIssues(origin, content) == [] <==> Validated(origin, content)
  {
    NoIssuesUpTo(origin, content, |content|);
    if ContentIssues(origin, content) == [] {
      forall part | part in content ensures !Foreign(origin, part) && !Malformed(part) {
        var i :| 0 <= i < |content| && content[i] == part;
        assert Clean(origin, content, i);
      }
      forall i, j | 0 <= i < j < |content|
        ensures IdOf(content[j], ItemId).Some? ==> IdOf(content[i], ItemId) != IdOf(content[j], ItemId)
        ensures IdOf(content[j], CallId).Some? ==> IdOf(content[i], CallId) != IdOf(content[j], CallId)
      {
        assert Clean(origin, content, j);
      }
    }
  }

  // ----- the rules on the fields -----

  /** The part carries evidence only this protocol returns. */
  predicate EvidenceOfProtocol(part: OutputPart, protocol: Protocol) {
    match protocol
    case GoogleInteractions =>
      part.ReasoningPart? && part.reasoningEvidence.Some? && part.reasoningEvidence.value.GoogleThoughtSignature?
    case AnthropicMessages =>
      && part.ReasoningPart? && part.reasoningEvidence.Some?
      && (part.reasoningEvidence.value.AnthropicThinkingSignature?
          || part.reasoningEvidence.value.AnthropicRedactedThinking?)
    case OpenAIResponses =>
      || (part.MessagePart? && part.messageEvidence.Some?)
      || (part.LocalCallPart? && part.callEvidence.Some?)
      || (part.ReasoningPart? && part.reasoningEvidence.Some? && part.reasoningEvidence.value.ResponsesReasoning?)
  }

  /** Signed thinking with a summary, or not of exactly one text; or redacted
      thinking with a summary or any content. */
  predicate BadThinking(part: OutputPart) {
    && part.ReasoningPart? && part.reasoningEvidence.Some?
    && (|| (part.reasoningEvidence.value.AnthropicThinkingSignature?
            && !(part.summary == [] && part.thinking.Some? && |part.thinking.value| == 1))
        || (part.reasoningEvidence.value.AnthropicRedactedThinking?
            && !(part.summary == [] && part.thinking == None)))
  }

  /** The part's evidence names this item. */
  predicate NamesItem(part: OutputPart, itemId: string) {
    || (part.MessagePart? && part.messageEvidence.Some? && part.messageEvidence.value.itemId == itemId)
    || (part.LocalCallPart? && part.callEvidence.Some? && part.callEvidence.value.itemId == Some(itemId))
    || (part.ReasoningPart? && part.reasoningEvidence.Some?
        && part.reasoningEvidence.value.ResponsesReasoning? && part.reasoningEvidence.value.itemId == itemId)
  }

  predicate MakesCall(part: OutputPart, callId: string) {
    part.LocalCallPart? && part.providerCallId == callId
  }

  ghost predicate Stands(issues: seq<ContentIssue>, i: nat, fault: Fault) {
    ContentIssue(i, fault) in issues
  }

  lemma {:induction false} IssueStandsUpTo(
    origin: Option<ModelOrigin>, content: seq<OutputPart>, n: nat, i: nat, fault: Fault)
    requires n <= |content|
    ensures Stands(IssuesUpTo(origin, content, n), i, fault) <==> i < n && Shows(origin, content, i, fault)
  {
    if n > 0 {
      IssueStandsUpTo(origin, content, n - 1, i, fault);
      FaultIsOneOfFour(fault);
    }
  }

  lemma FaultIsOneOfFour(fault: Fault)
    ensures fault == ForeignEvidence || fault == MalformedThinking
            || fault == Repeated(ItemId) || fault == Repeated(CallId)
  {
    match fault
    case ForeignEvidence | MalformedThinking =>
    case Repeated(id) =>
      assert id == ItemId || id == CallId;
  }

  lemma ItemNamed(part: OutputPart, itemId: string)
    ensures NamesItem(part, itemId) <==> IdOf(part, ItemId) == Some(itemId)
  {
  }

  lemma ForeignOnFields(origin: Option<ModelOrigin>, part: OutputPart)
    ensures Foreign(origin, part) <==>
            exists protocol ::
              EvidenceOfProtocol(part, protocol) && !(origin.Some? && origin.value.protocol == protocol)
  {
    var kind := EvidenceKindOf(part);
    if kind.Some? {
      assert EvidenceOfProtocol(part, EvidenceProtocol(kind.value));
    }
    forall protocol | EvidenceOfProtocol(part, protocol)
      ensures kind.Some? && EvidenceProtocol(kind.value) == protocol
    {
    }
  }

  /** Where each kind of issue stands, read off the parts' own fields. */
  lemma {:induction false} IssuesOnFields(origin: Option<ModelOrigin>, content: seq<OutputPart>, i: nat)
    requires i < |content|
    ensures var issues := ContentIssues(origin, content);
            && (Stands(issues, i, ForeignEvidence) <==>
                  exists protocol ::
                    EvidenceOfProtocol(content[i], protocol) && !(origin.Some? && origin.value.protocol == protocol))
            && (Stands(issues, i, MalformedThinking) <==> BadThinking(content[i]))
            && (Stands(issues, i, Repeated(ItemId)) <==>
                  exists j, itemId | 0 <= j < i :: NamesItem(content[j], itemId) && NamesItem(content[i], itemId))
            && (Stands(issues, i, Repeated(CallId)) <==>
                  exists j, callId | 0 <= j < i :: MakesCall(content[j], callId) && MakesCall(content[i], callId))
  {
    IssueStandsUpTo(origin, content, |content|, i, ForeignEvidence);
    IssueStandsUpTo(origin, content, |content|, i, MalformedThinking);
    IssueStandsUpTo(origin, content, |content|, i, Repeated(ItemId));
    IssueStandsUpTo(origin, content, |content|, i, Repeated(CallId));
    ForeignOnFields(origin, content[i]);
    ItemRepeatsOnFields(content, i);
    CallRepeatsOnFields(content, i);
  }

  lemma ItemRepeatsOnFields(content: seq<OutputPart>, i: nat)
    requires i < |content|
    ensures Repeats(content, i, ItemId) <==>
            exists j, itemId | 0 <= j < i :: NamesItem(content[j], itemId) && NamesItem(content[i], itemId)
  {
    forall j, itemId | 0 <= j <= i ensures NamesItem(content[j], itemId) <==> IdOf(content[j], ItemId) == Some(itemId) {
      ItemNamed(content[j], itemId);
    }
    if Repeats(content, i, ItemId) {
      var j :| 0 <= j < i && IdOf(content[j], ItemId) == IdOf(content[i], ItemId);
      assert NamesItem(content[j], IdOf(content[i], ItemId).value);
    }
  }

  lemma CallRepeatsOnFields(content: seq<OutputPart>, i: nat)
    requires i < |content|
    ensures Repeats(content, i, CallId) <==>
            exists j, callId | 0 <= j < i :: MakesCall(content[j], callId) && MakesCall(content[i], callId)
  {
    if Repeats(content, i, CallId) {
      var j :| 0 <= j < i && IdOf(content[j], CallId) == IdOf(content[i], CallId);
      assert MakesCall(content[j], content[i].providerCallId) && MakesCall(content[i], content[i].providerCallId);
    }
    forall j, callId | 0 <= j < i && MakesCall(content[j], callId) && MakesCall(content[i], callId)
      ensures Repeats(content, i, CallId)
    {
      assert IdOf(content[j], CallId) == IdOf(content[i], CallId);
    }
  }

  /** So content is accepted exactly when all its evidence is of the origin's
      protocol, signed thinking is one text and redacted thinking none, and no
      two parts name the same item or make the same call. */
  lemma {:induction false} AcceptedOnFields(origin: Option<ModelOrigin>, content: seq<OutputPart>)
    ensures ContentIssues(origin, content) == [] <==>
            && (forall i, protocol | 0 <= i < |content| && EvidenceOfProtocol(content[i], protocol) ::
                  origin.Some? && origin.value.protocol == protocol)
            && (forall i | 0 <= i < |content| :: !BadThinking(content[i]))
            && (forall i, j, itemId | 0 <= j < i < |content| ::
                  !(NamesItem(content[j], itemId) && NamesItem(content[i], itemId)))
            && (forall i, j, callId | 0 <= j < i < |content| ::
                  !(MakesCall(content[j], callId) && MakesCall(content[i], callId)))
  {
    NoIssuesUpTo(origin, content, |content|);
    forall i: nat | i < |content|
      ensures Clean(origin, content, i) <==>
              && (forall protocol | EvidenceOfProtocol(content[i], protocol) ::
                    origin.Some? && origin.value.protocol == protocol)
              && !BadThinking(content[i])
              && (forall j, itemId | 0 <= j < i :: !(NamesItem(content[j], itemId) && NamesItem(content[i], itemId)))
              && (forall j, callId | 0 <= j < i :: !(MakesCall(content[j], callId) && MakesCall(content[i], callId)))
    {
      ForeignOnFields(origin, content[i]);
      ItemRepeatsOnFields(content, i);
      CallRepeatsOnFields(content, i);
    }
  }
}
